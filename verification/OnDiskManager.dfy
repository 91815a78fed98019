/**
 The key info manager: an in-memory map of key triples to key information over a file per mapping.
 File operations fail where a fault says so; a fault also says how far the failing call got.
 */
module OnDiskManager {
  import opened Types
  import opened FileNames
  import PsaAttributes

  datatype KeyInfo = KeyInfo(id: seq<Byte>, attributes: PsaAttributes.Attributes)

  /** The serialisation of key information. */
  datatype Codec = Codec(write: KeyInfo -> seq<Byte>, read: seq<Byte> -> Option<KeyInfo>)
  {
    ghost predicate RoundTrips() { forall k :: read(write(k)) == Some(k) }
  }

  datatype IoError = IoError

  datatype FileTree = FileTree(dirs: set<Path>, files: map<Path, seq<Byte>>)

  /** Which file operation of a save fails; a partial effect stays on the disk. */
  datatype SaveFault = NoFault | MkdirFails(made: nat) | RemoveFails | CreateFails | WriteFails(written: nat)

  predicate Exists(d: FileTree, p: Path) { p in d.dirs || p in d.files }

  function FileAt(d: FileTree, p: Path): (r: Option<seq<Byte>>) {
    if p in d.files then Some(d.files[p]) else None
  }

  function MakeDirs(d: FileTree, dir: Path, n: nat): (r: FileTree)
    ensures r.files == d.files && d.dirs <= r.dirs
    ensures forall p :: p in r.dirs <==> p in d.dirs || (p <= dir && 1 <= |p| <= n)
  {
    var made := set k | 1 <= k <= n && k <= |dir| :: dir[..k];
    assert forall p: Path | p <= dir && 1 <= |p| <= n :: p in made by {
      forall p: Path | p <= dir && 1 <= |p| <= n ensures p in made {
        assert p == dir[..|p|];
      }
    }
    d.(dirs := d.dirs + made)
  }

  /** Creating the directories fails when one of them is a file. */
  predicate Blocked(d: FileTree, dir: Path) { exists f | f in d.files :: f <= dir }

  predicate RemoveBlocked(d: FileTree, file: Path, fault: SaveFault) {
    file in d.dirs || (file in d.files && fault.RemoveFails?)
  }

  /** What a write that stopped early has put in the file. */
  function Prefix(bytes: seq<Byte>, n: nat): (r: seq<Byte>) { if n <= |bytes| then bytes[..n] else bytes }

  /** `save_mapping`: make the directories, drop an old file, create the file, write it. */
  function Save(d: FileTree, dir: Path, file: Path, bytes: seq<Byte>, fault: SaveFault): (r: (FileTree, bool)) {
    if fault.MkdirFails? then (MakeDirs(d, dir, fault.made), false)
    else if Blocked(d, dir) then (d, false)
    else
      var d1 := MakeDirs(d, dir, |dir|);
      if RemoveBlocked(d1, file, fault) then (d1, false)
      else
        var d2 := d1.(files := d1.files - {file});
        if fault.CreateFails? then (d2, false)
        else if fault.WriteFails? then (d2.(files := d2.files[file := Prefix(bytes, fault.written)]), false)
        else (d2.(files := d2.files[file := bytes]), true)
  }

  /** `delete_mapping`: remove the file when there is one. */
  function Delete(d: FileTree, file: Path, fails: bool): (r: (FileTree, bool)) {
    if !Exists(d, file) then (d, true)
    else if fails || file in d.dirs then (d, false)
    else (d.(files := d.files - {file}), true)
  }

  datatype Store = Store(mem: map<KeyTriple, KeyInfo>, disk: FileTree)

  function Lookup(s: Store, t: KeyTriple): (r: Option<KeyInfo>) {
    if t in s.mem then Some(s.mem[t]) else None
  }

  function Insert(c: Codec, s: Store, t: KeyTriple, info: KeyInfo, fault: SaveFault)
    : (r: (Store, Result<Option<KeyInfo>, IoError>))
  {
    var (disk, ok) := Save(s.disk, DirOf(t), PathOf(t), c.write(info), fault);
    if ok then (Store(s.mem[t := info], disk), Ok(Lookup(s, t))) else (Store(s.mem, disk), Err(IoError))
  }

  function Remove(s: Store, t: KeyTriple, fails: bool): (r: (Store, Result<Option<KeyInfo>, IoError>)) {
    var (disk, ok) := Delete(s.disk, PathOf(t), fails);
    if ok then (Store(s.mem - {t}, disk), Ok(Lookup(s, t))) else (Store(s.mem, disk), Err(IoError))
  }

  // ----- Runs of calls -----

  datatype Event = InsertEvent(t: KeyTriple, info: KeyInfo, fault: SaveFault) | RemoveEvent(t: KeyTriple, fails: bool)

  function Step(c: Codec, s: Store, e: Event): (r: (Store, Result<Option<KeyInfo>, IoError>)) {
    match e
    case InsertEvent(t, info, fault) => Insert(c, s, t, info, fault)
    case RemoveEvent(t, fails) => Remove(s, t, fails)
  }

  const EMPTY := Store(map[], FileTree({}, map[]))

  /** The store after a run of calls on a fresh mappings directory. */
  function Run(c: Codec, es: seq<Event>): (s: Store) {
    if es == [] then EMPTY else Step(c, Run(c, es[..|es| - 1]), es[|es| - 1]).0
  }

  /** The triples whose latest insert failed with no successful call on them since. */
  function Suspects(c: Codec, es: seq<Event>): (r: set<KeyTriple>) {
    if es == [] then {}
    else
      var before, e := es[..|es| - 1], es[|es| - 1];
      if Step(c, Run(c, before), e).1.Ok? then Suspects(c, before) - {e.t}
      else if e.InsertEvent? then Suspects(c, before) + {e.t}
      else Suspects(c, before)
  }

  /** Memory and disk say the same about a triple. */
  predicate Agree(c: Codec, s: Store, t: KeyTriple) {
    FileAt(s.disk, PathOf(t)) == if t in s.mem then Some(c.write(s.mem[t])) else None
  }

  lemma SaveFrame(d: FileTree, dir: Path, file: Path, bytes: seq<Byte>, fault: SaveFault, p: Path)
    requires p != file
    ensures FileAt(Save(d, dir, file, bytes, fault).0, p) == FileAt(d, p)
  {
  }

  /** What a call leaves as it found it: the memory and the file of every other triple. */
  lemma StepFrame(c: Codec, s: Store, e: Event, u: KeyTriple)
    requires u != e.t
    ensures var s' := Step(c, s, e).0;
            Lookup(s', u) == Lookup(s, u) && FileAt(s'.disk, PathOf(u)) == FileAt(s.disk, PathOf(u))
  {
    if PathOf(u) == PathOf(e.t) {
      PathOfInjective(u, e.t);
    }
    if e.InsertEvent? {
      SaveFrame(s.disk, DirOf(e.t), PathOf(e.t), c.write(e.info), e.fault, PathOf(u));
    }
  }

  /** A failed call never changes memory. */
  lemma FailureKeepsMemory(c: Codec, s: Store, e: Event)
    requires Step(c, s, e).1.Err?
    ensures Step(c, s, e).0.mem == s.mem
  {
  }

  /** A successful call makes memory and disk agree on its triple, whatever they said before. */
  lemma SuccessRestoresAgreement(c: Codec, s: Store, e: Event)
    requires Step(c, s, e).1.Ok?
    ensures Agree(c, Step(c, s, e).0, e.t)
    ensures Step(c, s, e).1.value == Lookup(s, e.t)
    ensures Lookup(Step(c, s, e).0, e.t) == if e.InsertEvent? then Some(e.info) else None
  {
    if e.InsertEvent? {
      SavedFile(s.disk, DirOf(e.t), PathOf(e.t), c.write(e.info), e.fault);
    } else {
      DeletedFile(s.disk, PathOf(e.t), e.fails);
    }
  }

  lemma SavedFile(d: FileTree, dir: Path, file: Path, bytes: seq<Byte>, fault: SaveFault)
    requires Save(d, dir, file, bytes, fault).1
    ensures FileAt(Save(d, dir, file, bytes, fault).0, file) == Some(bytes)
  {
  }

  lemma DeletedFile(d: FileTree, file: Path, fails: bool)
    requires Delete(d, file, fails).1
    ensures FileAt(Delete(d, file, fails).0, file) == None
  {
  }

  // ----- When calls succeed -----

  /** The path of the triple is no directory, and the removal of its file, if there is one, works. */
  predicate CanDelete(d: FileTree, t: KeyTriple, fails: bool) {
    PathOf(t) !in d.dirs && (PathOf(t) in d.files ==> !fails)
  }

  /** A remove takes away mapping and file exactly when the file can be deleted, and otherwise changes nothing. */
  lemma RemoveIsExact(s: Store, t: KeyTriple, fails: bool)
    ensures Remove(s, t, fails).1.Ok? <==> CanDelete(s.disk, t, fails)
    ensures Remove(s, t, fails).0 ==
            if CanDelete(s.disk, t, fails) then Store(s.mem - {t}, s.disk.(files := s.disk.files - {PathOf(t)})) else s
  {
  }

  /** In a tree that saving has made, no file is in the way of a directory and no directory in that of a file. */
  lemma NothingIsInTheWay(d: FileTree, t: KeyTriple)
    requires Saved(d)
    ensures !Blocked(d, DirOf(t))
    ensures t.key != [] ==> PathOf(t) !in MakeDirs(d, DirOf(t), |DirOf(t)|).dirs
  {
    forall f | f in d.files ensures !(f <= DirOf(t)) {
      var u: KeyTriple :| u.key != [] && f == PathOf(u);
      FilesAreNotDirectories(u, t);
    }
    if t.key != [] && PathOf(t) in MakeDirs(d, DirOf(t), |DirOf(t)|).dirs {
      var u :| PathOf(t) <= DirOf(u);
      FilesAreNotDirectories(t, u);
    }
  }

  /** On such a tree an insert succeeds exactly when there is a key name and no file operation fails. */
  lemma InsertSucceedsIff(c: Codec, s: Store, t: KeyTriple, info: KeyInfo, fault: SaveFault)
    requires Saved(s.disk)
    ensures Insert(c, s, t, info, fault).1.Ok? <==>
            t.key != [] && (fault.NoFault? || (fault.RemoveFails? && PathOf(t) !in s.disk.files))
  {
    NothingIsInTheWay(s.disk, t);
    if t.key == [] {
      EmptyKeyIsDirectory(t);
      PathDepth(t);
    }
  }

  /** On such a tree a remove succeeds exactly when there is no file or its removal works. */
  lemma RemoveSucceedsIff(s: Store, t: KeyTriple, fails: bool)
    requires Saved(s.disk)
    ensures Remove(s, t, fails).1.Ok? <==>
            if t.key == [] then DirOf(t) !in s.disk.dirs else PathOf(t) in s.disk.files ==> !fails
  {
    NothingIsInTheWay(s.disk, t);
    if t.key == [] {
      EmptyKeyIsDirectory(t);
    }
  }

  /** The insert fails before it has touched the file of its triple. */
  predicate FailsEarly(d: FileTree, t: KeyTriple, fault: SaveFault) {
    fault.MkdirFails? || Blocked(d, DirOf(t)) || RemoveBlocked(MakeDirs(d, DirOf(t), |DirOf(t)|), PathOf(t), fault)
  }

  /** The insert has dropped the old file, and what it then leaves is what memory says. */
  predicate LeavesWhatMemorySays(c: Codec, s: Store, t: KeyTriple, info: KeyInfo, fault: SaveFault) {
    if fault.WriteFails? then t in s.mem && Prefix(c.write(info), fault.written) == c.write(s.mem[t])
    else t !in s.mem
  }

  /** After a failed insert memory and disk agree on its triple exactly when one of these holds. */
  lemma AgreementAfterFailedInsert(c: Codec, s: Store, t: KeyTriple, info: KeyInfo, fault: SaveFault)
    requires Insert(c, s, t, info, fault).1.Err?
    ensures Agree(c, Insert(c, s, t, info, fault).0, t) <==>
            if FailsEarly(s.disk, t, fault) then Agree(c, s, t) else LeavesWhatMemorySays(c, s, t, info, fault)
  {
    var d := Insert(c, s, t, info, fault).0.disk;
    if FailsEarly(s.disk, t, fault) {
      assert d.files == s.disk.files;
    } else if fault.CreateFails? {
      assert PathOf(t) !in d.files;
    } else {
      assert d.files[PathOf(t)] == Prefix(c.write(info), fault.written);
    }
  }

  /** The triples whose file the run has left with something else than memory says. */
  function Damaged(c: Codec, es: seq<Event>): (r: set<KeyTriple>) {
    if es == [] then {}
    else
      var before, e := es[..|es| - 1], es[|es| - 1];
      var s, damaged := Run(c, before), Damaged(c, before);
      if Step(c, s, e).1.Ok? then damaged - {e.t}
      else if e.RemoveEvent? || FailsEarly(s.disk, e.t, e.fault) then damaged
      else if LeavesWhatMemorySays(c, s, e.t, e.info, e.fault) then damaged - {e.t}
      else damaged + {e.t}
  }

  lemma AgreementAfterCall(c: Codec, s: Store, e: Event)
    ensures Agree(c, Step(c, s, e).0, e.t) <==>
            || Step(c, s, e).1.Ok?
            || (if e.RemoveEvent? || FailsEarly(s.disk, e.t, e.fault) then Agree(c, s, e.t)
                else LeavesWhatMemorySays(c, s, e.t, e.info, e.fault))
  {
    if Step(c, s, e).1.Ok? {
      SuccessRestoresAgreement(c, s, e);
    } else if e.InsertEvent? {
      AgreementAfterFailedInsert(c, s, e.t, e.info, e.fault);
    }
  }

  /** In every run, memory and disk agree on a triple if and only if the run has not damaged it. */
  lemma {:induction false} AgreementIsExact(c: Codec, es: seq<Event>, t: KeyTriple)
    ensures Agree(c, Run(c, es), t) <==> t !in Damaged(c, es)
  {
    if es == [] {
      assert Run(c, es) == EMPTY;
    } else {
      var before, e := es[..|es| - 1], es[|es| - 1];
      AgreementIsExact(c, before, t);
      if t != e.t {
        StepFrame(c, Run(c, before), e, t);
      } else {
        AgreementAfterCall(c, Run(c, before), e);
      }
    }
  }

  lemma {:induction false} DamagedAreSuspects(c: Codec, es: seq<Event>)
    ensures Damaged(c, es) <= Suspects(c, es)
  {
    if es == [] {
      assert Damaged(c, es) == {};
    } else {
      DamagedAreSuspects(c, es[..|es| - 1]);
    }
  }

  /** In every run, memory and disk agree on every triple except those whose latest insert failed. */
  lemma MemoryAndDiskAgree(c: Codec, es: seq<Event>, t: KeyTriple)
    requires t !in Suspects(c, es)
    ensures Agree(c, Run(c, es), t)
  {
    DamagedAreSuspects(c, es);
    AgreementIsExact(c, es, t);
  }

  lemma FirstInsert(c: Codec, t: KeyTriple, info: KeyInfo)
    requires t.key != []
    ensures var s := Insert(c, EMPTY, t, info, NoFault).0;
            s.mem == map[t := info] && s.disk.files == map[PathOf(t) := c.write(info)] && PathOf(t) !in s.disk.dirs
  {
    PathDepth(t);
    FilesAreNotDirectories(t, t);
  }

  /** A failed insert can cost the old file although memory still holds the old mapping. */
  lemma FailedInsertMayLoseTheFile(c: Codec, t: KeyTriple, info: KeyInfo)
    requires t.key != []
    ensures var es := [InsertEvent(t, info, NoFault), InsertEvent(t, info, CreateFails)];
            t in Run(c, es).mem && FileAt(Run(c, es).disk, PathOf(t)) == None
  {
    RunsOfTwo(c, InsertEvent(t, info, NoFault), InsertEvent(t, info, CreateFails));
    SecondInsertLosesTheFile(c, t, info);
  }

  lemma SecondInsertLosesTheFile(c: Codec, t: KeyTriple, info: KeyInfo)
    requires t.key != []
    ensures var s := Insert(c, Insert(c, EMPTY, t, info, NoFault).0, t, info, CreateFails).0;
            t in s.mem && FileAt(s.disk, PathOf(t)) == None
  {
    FirstInsert(c, t, info);
    LostFile(c, Insert(c, EMPTY, t, info, NoFault).0, t, info);
  }

  lemma RunsOfTwo(c: Codec, e1: Event, e2: Event)
    ensures Run(c, [e1, e2]) == Step(c, Step(c, EMPTY, e1).0, e2).0
  {
    RunExtends(c, [], e1);
    RunExtends(c, [e1], e2);
    assert [] + [e1] == [e1] && [e1] + [e2] == [e1, e2];
  }

  lemma LostFile(c: Codec, s: Store, t: KeyTriple, info: KeyInfo)
    requires t.key != [] && t in s.mem && s.disk.files.Keys == {PathOf(t)} && PathOf(t) !in s.disk.dirs
    ensures var s' := Insert(c, s, t, info, CreateFails).0; t in s'.mem && FileAt(s'.disk, PathOf(t)) == None
  {
    PathDepth(t);
    FilesAreNotDirectories(t, t);
  }

  lemma RunExtends(c: Codec, es: seq<Event>, e: Event)
    ensures Run(c, es + [e]) == Step(c, Run(c, es), e).0
  {
    assert (es + [e])[..|es|] == es;
  }

  // ----- Reading the mappings back -----

  /** The shape that saving gives the tree: every file is the file of a triple and has its directories. */
  ghost predicate Saved(d: FileTree) {
    && (forall f | f in d.files :: exists t: KeyTriple :: t.key != [] && f == PathOf(t))
    && (forall p | p in d.dirs :: exists u :: p <= DirOf(u))
    && (forall t: KeyTriple | t.key != [] && PathOf(t) in d.files :: HasDirs(d, DirOf(t)))
  }

  /** All directories on the way exist. */
  ghost predicate HasDirs(d: FileTree, dir: Path) { forall p | p <= dir && p != [] :: p in d.dirs }

  /** What a call on a triple may do to the tree. */
  ghost predicate Touches(d: FileTree, d': FileTree, dir: Path, file: Path) {
    && d.dirs <= d'.dirs
    && (forall p | p in d'.dirs && p !in d.dirs :: p <= dir)
    && (forall f | f in d'.files && f !in d.files :: f == file && f !in d'.dirs)
    && (file in d'.files && file !in d.files ==> HasDirs(d', dir))
  }

  lemma SaveTouches(d: FileTree, dir: Path, file: Path, bytes: seq<Byte>, fault: SaveFault)
    ensures Touches(d, Save(d, dir, file, bytes, fault).0, dir, file)
  {
    if fault.MkdirFails? {
      assert Save(d, dir, file, bytes, fault).0 == MakeDirs(d, dir, fault.made);
    } else if !Blocked(d, dir) {
      var d1, d' := MakeDirs(d, dir, |dir|), Save(d, dir, file, bytes, fault).0;
      assert d'.dirs == d1.dirs && d'.files.Keys <= d.files.Keys + {file};
      assert file in d1.dirs ==> d'.files == d.files;
    }
  }

  lemma StepTouches(c: Codec, s: Store, e: Event)
    ensures Touches(s.disk, Step(c, s, e).0.disk, DirOf(e.t), PathOf(e.t))
  {
    if e.InsertEvent? {
      SaveTouches(s.disk, DirOf(e.t), PathOf(e.t), c.write(e.info), e.fault);
    }
  }

  lemma TouchKeepsSaved(d: FileTree, d': FileTree, t: KeyTriple)
    requires Saved(d) && Touches(d, d', DirOf(t), PathOf(t))
    ensures Saved(d')
  {
    forall f | f in d'.files ensures exists t: KeyTriple :: t.key != [] && f == PathOf(t) {
      if f !in d.files && t.key == [] {
        EmptyKeyIsDirectory(t);
        PathDepth(t);
      }
    }
    forall u: KeyTriple | u.key != [] && PathOf(u) in d'.files ensures HasDirs(d', DirOf(u)) {
      if PathOf(u) !in d.files {
        PathOfInjective(u, t);
      }
    }
  }
}
