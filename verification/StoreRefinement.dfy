/**
 The key store of the lifecycle machine is an abstraction of the key info manager: an insert, a remove and
 a reload with reconciliation of the byte-level store are steps of the machine's map and mapping files.
 */
module StoreRefinement {
  import opened Types
  import opened FileNames
  import opened OnDiskManager
  import opened StartUp
  import L = Lifecycle
  import Reload

  /** No proper prefix of a serialisation can be read; a write that stops early leaves an unreadable file. */
  ghost predicate PrefixFree(c: Codec) {
    forall k, n: nat | n < |c.write(k)| :: c.read(Prefix(c.write(k), n)).None?
  }

  /** What the machine knows of the bytes of a mapping file. */
  predicate Describes(file: L.File, read: Option<KeyInfo>, decode: seq<Byte> -> Option<nat>) {
    match file
    case Good(id) => read.Some? && decode(read.value.id) == Some(id)
    case Torn => read.None?
  }

  /** The machine's view of one triple. */
  predicate RelatedAt(c: Codec, decode: seq<Byte> -> Option<nat>, s: Store, mem: map<KeyTriple, nat>,
                      disk: map<KeyTriple, L.File>, t: KeyTriple) {
    && (t in mem <==> t in s.mem)
    && (t in mem ==> decode(s.mem[t].id) == Some(mem[t]))
    && (t in disk <==> PathOf(t) in s.disk.files)
    && (t in disk ==> Describes(disk[t], c.read(s.disk.files[PathOf(t)]), decode))
  }

  /** The machine's map and files are those of one provider in the shared store. */
  ghost predicate Related(c: Codec, decode: seq<Byte> -> Option<nat>, provider: ProviderId, s: Store,
                          mem: map<KeyTriple, nat>, disk: map<KeyTriple, L.File>) {
    && (forall t | t in mem || t in disk :: t.provider == provider)
    && (forall t: KeyTriple | t.provider == provider :: RelatedAt(c, decode, s, mem, disk, t))
  }

  /** Two stores agree on every triple but one. */
  ghost predicate SameBut(s: Store, s': Store, u: KeyTriple) {
    forall t: KeyTriple | t != u :: Lookup(s', t) == Lookup(s, t)
      && FileAt(s'.disk, PathOf(t)) == FileAt(s.disk, PathOf(t))
  }

  lemma CallsAreLocal(c: Codec, s: Store, e: Event)
    ensures SameBut(s, Step(c, s, e).0, e.t)
  {
    forall t: KeyTriple | t != e.t
      ensures Lookup(Step(c, s, e).0, t) == Lookup(s, t)
          && FileAt(Step(c, s, e).0.disk, PathOf(t)) == FileAt(s.disk, PathOf(t))
    {
      StepFrame(c, s, e, t);
    }
  }

  lemma OtherStaysRelated(c: Codec, decode: seq<Byte> -> Option<nat>, s: Store, s': Store, u: KeyTriple, t: KeyTriple,
                          mem: map<KeyTriple, nat>, disk: map<KeyTriple, L.File>,
                          mem': map<KeyTriple, nat>, disk': map<KeyTriple, L.File>)
    requires RelatedAt(c, decode, s, mem, disk, t) && SameBut(s, s', u) && t != u
    requires mem' - {u} == mem - {u} && disk' - {u} == disk - {u}
    ensures RelatedAt(c, decode, s', mem', disk', t)
  {
    SameElsewhere(mem, mem', u, t);
    SameElsewhere(disk, disk', u, t);
    assert Lookup(s', t) == Lookup(s, t) && FileAt(s'.disk, PathOf(t)) == FileAt(s.disk, PathOf(t));
  }

  /** A change to one triple leaves the view of the others as it was. */
  lemma OthersStayRelated(c: Codec, decode: seq<Byte> -> Option<nat>, provider: ProviderId, s: Store, s': Store,
                          u: KeyTriple,
                          mem: map<KeyTriple, nat>, disk: map<KeyTriple, L.File>,
                          mem': map<KeyTriple, nat>, disk': map<KeyTriple, L.File>)
    requires Related(c, decode, provider, s, mem, disk) && SameBut(s, s', u)
    requires mem' - {u} == mem - {u} && disk' - {u} == disk - {u}
    requires if u.provider == provider then RelatedAt(c, decode, s', mem', disk', u) else u !in mem' && u !in disk'
    ensures Related(c, decode, provider, s', mem', disk')
  {
    forall t | t in mem' || t in disk' ensures t.provider == provider {
      if t != u {
        assert t in mem' - {u} || t in disk' - {u};
      }
    }
    forall t: KeyTriple | t.provider == provider ensures RelatedAt(c, decode, s', mem', disk', t) {
      if t != u {
        OtherStaysRelated(c, decode, s, s', u, t, mem, disk, mem', disk');
      }
    }
  }

  lemma SameElsewhere<V>(m: map<KeyTriple, V>, m': map<KeyTriple, V>, u: KeyTriple, t: KeyTriple)
    requires m - {u} == m' - {u} && t != u
    ensures t in m <==> t in m'
    ensures t in m ==> m[t] == m'[t]
  {
    assert t in m <==> t in m - {u};
    assert t in m' <==> t in m' - {u};
    if t in m {
      assert (m - {u})[t] == (m' - {u})[t];
    }
  }

  /** What a failed save leaves of the file of its own triple. */
  function LeftBy(d: FileTree, t: KeyTriple, bytes: seq<Byte>, fault: SaveFault): (left: L.Leftover) {
    var d1 := MakeDirs(d, DirOf(t), |DirOf(t)|);
    if fault.MkdirFails? || Blocked(d, DirOf(t)) || RemoveBlocked(d1, PathOf(t), fault) then L.Untouched
    else if fault.CreateFails? then L.Missing
    else if fault.WriteFails? && fault.written < |bytes| then L.Partial
    else L.Complete
  }

  lemma FailedSaveLeaves(c: Codec, decode: seq<Byte> -> Option<nat>, s: Store, t: KeyTriple, info: KeyInfo,
                         fault: SaveFault, id: nat,
                         mem: map<KeyTriple, nat>, disk: map<KeyTriple, L.File>)
    requires c.RoundTrips() && PrefixFree(c) && RelatedAt(c, decode, s, mem, disk, t) && decode(info.id) == Some(id)
    requires Insert(c, s, t, info, fault).1.Err?
    ensures RelatedAt(c, decode, Insert(c, s, t, info, fault).0, mem, L.Leave(disk, t, id, LeftBy(s.disk, t,
        c.write(info), fault)), t)
  {
    var bytes := c.write(info);
    var d := Save(s.disk, DirOf(t), PathOf(t), bytes, fault).0;
    match LeftBy(s.disk, t, bytes, fault) {
      case Untouched => assert d.files == s.disk.files;
      case Missing => assert PathOf(t) !in d.files;
      case Partial => assert c.read(Prefix(bytes, fault.written)).None?;
      case Complete => assert Prefix(bytes, fault.written) == bytes && c.read(bytes) == Some(info);
    }
  }

  lemma SuccessfulSaveSets(c: Codec, decode: seq<Byte> -> Option<nat>, s: Store, t: KeyTriple, info: KeyInfo,
                           fault: SaveFault, id: nat,
                           mem: map<KeyTriple, nat>, disk: map<KeyTriple, L.File>)
    requires c.RoundTrips() && decode(info.id) == Some(id) && Insert(c, s, t, info, fault).1.Ok?
    ensures RelatedAt(c, decode, Insert(c, s, t, info, fault).0, mem[t := id], disk[t := L.Good(id)], t)
  {
    var s' := Insert(c, s, t, info, fault).0;
    SuccessRestoresAgreement(c, s, InsertEvent(t, info, fault));
    assert FileAt(s'.disk, PathOf(t)) == Some(c.write(info));
    assert c.read(c.write(info)) == Some(info);
  }

  lemma LeftoversAreLocal(disk: map<KeyTriple, L.File>, t: KeyTriple, id: nat, left: L.Leftover)
    ensures L.Leave(disk, t, id, left) - {t} == disk - {t}
  {
  }

  /** A successful insert sets the mapping and its file and answers whether there was one before. */
  lemma InsertRelates(c: Codec, decode: seq<Byte> -> Option<nat>, provider: ProviderId, s: Store,
                        mem: map<KeyTriple, nat>, disk: map<KeyTriple, L.File>,
                        t: KeyTriple, info: KeyInfo, fault: SaveFault, id: nat)
    requires c.RoundTrips() && Related(c, decode, provider, s, mem, disk)
    requires t.provider == provider && decode(info.id) == Some(id) && Insert(c, s, t, info, fault).1.Ok?
    ensures Related(c, decode, provider, Insert(c, s, t, info, fault).0, mem[t := id], disk[t := L.Good(id)])
    ensures Insert(c, s, t, info, fault).1.value.Some? <==> t in mem
  {
    var s' := Insert(c, s, t, info, fault).0;
    assert RelatedAt(c, decode, s, mem, disk, t);
    SuccessfulSaveSets(c, decode, s, t, info, fault, id, mem, disk);
    CallsAreLocal(c, s, InsertEvent(t, info, fault));
    OthersStayRelated(c, decode, provider, s, s', t, mem, disk, mem[t := id], disk[t := L.Good(id)]);
  }

  /** A failed insert leaves memory as it was, and its file as it was, missing, torn or complete. */
  lemma FailedInsertRelates(c: Codec, decode: seq<Byte> -> Option<nat>, provider: ProviderId, s: Store,
                              mem: map<KeyTriple, nat>, disk: map<KeyTriple, L.File>,
                              t: KeyTriple, info: KeyInfo, fault: SaveFault, id: nat)
    requires c.RoundTrips() && PrefixFree(c) && Related(c, decode, provider, s, mem, disk)
    requires t.provider == provider && decode(info.id) == Some(id) && Insert(c, s, t, info, fault).1.Err?
    ensures Related(c, decode, provider, Insert(c, s, t, info, fault).0,
                    mem, L.Leave(disk, t, id, LeftBy(s.disk, t, c.write(info), fault)))
  {
    var s', left := Insert(c, s, t, info, fault).0, LeftBy(s.disk, t, c.write(info), fault);
    assert RelatedAt(c, decode, s, mem, disk, t);
    FailedSaveLeaves(c, decode, s, t, info, fault, id, mem, disk);
    CallsAreLocal(c, s, InsertEvent(t, info, fault));
    LeftoversAreLocal(disk, t, id, left);
    OthersStayRelated(c, decode, provider, s, s', t, mem, disk, mem, L.Leave(disk, t, id, left));
  }

  /** A remove is the machine's removal step, or changes nothing. */
  lemma RemoveRelates(c: Codec, decode: seq<Byte> -> Option<nat>, provider: ProviderId, s: Store,
                        mem: map<KeyTriple, nat>, disk: map<KeyTriple, L.File>, t: KeyTriple, fails: bool)
    requires Related(c, decode, provider, s, mem, disk) && t.provider == provider
    ensures var (s', r) := Remove(s, t, fails);
            if r.Ok? then Related(c, decode, provider, s', mem - {t}, disk - {t}) && (r.value.Some? <==> t in mem)
            else s' == s
  {
    var e := RemoveEvent(t, fails);
    assert RelatedAt(c, decode, s, mem, disk, t);
    if Remove(s, t, fails).1.Ok? {
      SuccessRestoresAgreement(c, s, e);
      CallsAreLocal(c, s, e);
      OthersStayRelated(c, decode, provider, s, Remove(s, t, fails).0, t, mem, disk, mem - {t}, disk - {t});
    }
  }

  /** A call through another provider's client is no step of this provider's machine. */
  lemma OtherProvidersDoNotStep(c: Codec, decode: seq<Byte> -> Option<nat>, provider: ProviderId, s: Store,
                                mem: map<KeyTriple, nat>, disk: map<KeyTriple, L.File>, e: Event)
    requires Related(c, decode, provider, s, mem, disk) && e.t.provider != provider
    ensures Related(c, decode, provider, Step(c, s, e).0, mem, disk)
  {
    assert e.t !in mem && e.t !in disk;
    CallsAreLocal(c, s, e);
    OthersStayRelated(c, decode, provider, s, Step(c, s, e).0, e.t, mem, disk, mem, disk);
  }

  /** A reloaded mapping of the provider is a mapping file the machine sees as good. */
  lemma ReloadedIsGood(c: Codec, decode: seq<Byte> -> Option<nat>, provider: ProviderId, s: Store,
                       mem: map<KeyTriple, nat>, disk: map<KeyTriple, L.File>, m: map<KeyTriple, KeyInfo>, t: KeyTriple)
    requires Saved(s.disk) && Related(c, decode, provider, s, mem, disk) && t.provider == provider
    requires Reload.Holds(c, s.disk, m, iset f | Reload.Reached(s.disk, f)) && t in m
    ensures t in disk && disk[t].Good? && decode(m[t].id) == Some(disk[t].id)
  {
    Reload.HeldIsRead(c, s.disk, m, t);
    assert RelatedAt(c, decode, s, mem, disk, t);
  }

  lemma FileHasKey(d: FileTree, t: KeyTriple)
    requires Saved(d) && PathOf(t) in d.files
    ensures t.key != []
  {
    var u: KeyTriple :| u.key != [] && PathOf(t) == PathOf(u);
    PathOfInjective(t, u);
  }

  /** A listed mapping file of the provider is reloaded, and so was readable. */
  lemma FileIsReloaded(c: Codec, decode: seq<Byte> -> Option<nat>, provider: ProviderId, s: Store,
                       mem: map<KeyTriple, nat>, disk: map<KeyTriple, L.File>, m: map<KeyTriple, KeyInfo>, t: KeyTriple)
    requires Saved(s.disk) && Related(c, decode, provider, s, mem, disk) && t in disk && L.IsListed(t)
    requires Reload.Holds(c, s.disk, m, iset f | Reload.Reached(s.disk, f))
    ensures t in m && disk[t].Good?
  {
    assert RelatedAt(c, decode, s, mem, disk, t);
    FileHasKey(s.disk, t);
    Reload.SavedIsHeld(c, s.disk, m, t);
    ReloadedIsGood(c, decode, provider, s, mem, disk, m, t);
  }

  // ----- The machine's steps -----

  /** The map and the files of the machine are those of one provider in the store; saving has given it its shape. */
  ghost predicate Refines(c: Codec, decode: seq<Byte> -> Option<nat>, provider: ProviderId, s: Store, m: L.State) {
    Saved(s.disk) && Related(c, decode, provider, s, m.mem, m.disk)
  }

  lemma CallKeepsSaved(c: Codec, s: Store, e: Event)
    requires Saved(s.disk)
    ensures Saved(Step(c, s, e).0.disk)
  {
    StepTouches(c, s, e);
    TouchKeepsSaved(s.disk, Step(c, s, e).0.disk, e.t);
  }

  lemma StoreStep(m: L.State, i: nat)
    requires L.Enabled(m, L.StoreMapping(i))
    ensures var pc, m' := m.pcs[i], L.Step(m, L.StoreMapping(i));
            && m'.mem == m.mem[pc.t := pc.id] && m'.disk == m.disk[pc.t := L.Good(pc.id)] && |m'.pcs| == |m.pcs|
            && (m'.pcs[i].Undoing? <==> pc.t in m.mem)
  {
  }

  lemma StoreFailsStep(m: L.State, i: nat, left: L.Leftover)
    requires L.Enabled(m, L.StoreMappingFails(i, left))
    ensures var pc, m' := m.pcs[i], L.Step(m, L.StoreMappingFails(i, left));
            m'.mem == m.mem && m'.disk == L.Leave(m.disk, pc.t, pc.id, left)
  {
  }

  lemma RemoveStep(m: L.State, i: nat)
    requires L.Enabled(m, L.RemoveMapping(i))
    ensures var pc, m' := m.pcs[i], L.Step(m, L.RemoveMapping(i));
            && m'.mem == m.mem - {pc.t} && m'.disk == m.disk - {pc.t} && |m'.pcs| == |m.pcs|
            && (m'.pcs[i].Unmapped? <==> pc.t in m.mem)
  {
  }

  lemma GiveUpStep(m: L.State, i: nat)
    requires L.Enabled(m, L.GiveUp(i))
    ensures L.Step(m, L.GiveUp(i)).mem == m.mem && L.Step(m, L.GiveUp(i)).disk == m.disk
  {
  }

  /** A successful insert is the machine's store step; it answers that there was a mapping when the step must undo. */
  lemma InsertSimulates(c: Codec, decode: seq<Byte> -> Option<nat>, provider: ProviderId, s: Store, m: L.State, i: nat,
                        info: KeyInfo, fault: SaveFault)
    requires c.RoundTrips() && Refines(c, decode, provider, s, m) && L.Enabled(m, L.StoreMapping(i))
    requires m.pcs[i].t.provider == provider && decode(info.id) == Some(m.pcs[i].id)
    requires Insert(c, s, m.pcs[i].t, info, fault).1.Ok?
    ensures var (s', r) := Insert(c, s, m.pcs[i].t, info, fault);
            var m' := L.Step(m, L.StoreMapping(i));
            Refines(c, decode, provider, s', m') && i < |m'.pcs| && (r.value.Some? <==> m'.pcs[i].Undoing?)
  {
    var pc := m.pcs[i];
    StoreStep(m, i);
    CallKeepsSaved(c, s, InsertEvent(pc.t, info, fault));
    InsertRelates(c, decode, provider, s, m.mem, m.disk, pc.t, info, fault, pc.id);
  }

  /** A failed insert is the machine's failing store step with what the insert left of the file. */
  lemma FailedInsertSimulates(c: Codec, decode: seq<Byte> -> Option<nat>, provider: ProviderId, s: Store, m: L.State,
                              i: nat, info: KeyInfo, fault: SaveFault)
    requires c.RoundTrips() && PrefixFree(c) && Refines(c, decode, provider, s, m) && L.Enabled(m, L.StoreMapping(i))
    requires m.pcs[i].t.provider == provider && decode(info.id) == Some(m.pcs[i].id)
    requires Insert(c, s, m.pcs[i].t, info, fault).1.Err?
    ensures var left := LeftBy(s.disk, m.pcs[i].t, c.write(info), fault);
            L.Enabled(m, L.StoreMappingFails(i, left))
            && Refines(c, decode, provider, Insert(c, s, m.pcs[i].t, info, fault).0,
                       L.Step(m, L.StoreMappingFails(i, left)))
  {
    var pc := m.pcs[i];
    StoreFailsStep(m, i, LeftBy(s.disk, pc.t, c.write(info), fault));
    CallKeepsSaved(c, s, InsertEvent(pc.t, info, fault));
    FailedInsertRelates(c, decode, provider, s, m.mem, m.disk, pc.t, info, fault, pc.id);
  }

  /** A successful remove is the machine's removal step, and a failed one changes nothing and ends the destroy. */
  lemma RemoveSimulates(c: Codec, decode: seq<Byte> -> Option<nat>, provider: ProviderId, s: Store, m: L.State, i: nat,
                        fails: bool)
    requires Refines(c, decode, provider, s, m) && L.Enabled(m, L.RemoveMapping(i)) && m.pcs[i].t.provider == provider
    ensures var (s', r) := Remove(s, m.pcs[i].t, fails);
            if r.Ok? then
              var m' := L.Step(m, L.RemoveMapping(i));
              Refines(c, decode, provider, s', m') && i < |m'.pcs| && (r.value.Some? <==> m'.pcs[i].Unmapped?)
            else s' == s && L.Enabled(m, L.GiveUp(i)) && Refines(c, decode, provider, s', L.Step(m, L.GiveUp(i)))
  {
    var pc := m.pcs[i];
    CallKeepsSaved(c, s, RemoveEvent(pc.t, fails));
    RemoveRelates(c, decode, provider, s, m.mem, m.disk, pc.t, fails);
    if Remove(s, pc.t, fails).1.Ok? {
      RemoveStep(m, i);
    } else {
      GiveUpStep(m, i);
    }
  }

  /** A crash loses the map in memory and nothing else. */
  lemma CrashSimulates(c: Codec, decode: seq<Byte> -> Option<nat>, provider: ProviderId, s: Store, m: L.State)
    requires Refines(c, decode, provider, s, m) && L.Enabled(m, L.Crash)
    ensures Refines(c, decode, provider, Store(map[], s.disk), L.Step(m, L.Crash))
  {
    var m', s' := L.Step(m, L.Crash), Store(map[], s.disk);
    assert m'.mem == map[] && m'.disk == m.disk;
    forall t: KeyTriple | t.provider == provider ensures RelatedAt(c, decode, s', m'.mem, m'.disk, t) {
      assert RelatedAt(c, decode, s, m.mem, m.disk, t);
    }
  }

  // ----- Start-up -----

  /** The backend answers for the keys of the machine; Trusted Service does not ask. */
  ghost predicate Answers(backend: Backend, m: L.State) {
    forall id: nat :: backend.probe(id).Present? <==> m.kind == L.Ts || L.Live(m, id)
  }

  /** The reloaded map is what the listed files of the machine say. */
  ghost predicate Reloads(backend: Backend, provider: ProviderId, m: L.State, loaded: map<KeyTriple, KeyInfo>) {
    && (forall t | t in m.disk && L.IsListed(t) :: t in loaded && t.provider == provider && m.disk[t].Good?)
    && (forall t | t in loaded && t.provider == provider ::
          t in m.disk && L.IsListed(t) && m.disk[t].Good? && backend.decode(loaded[t].id) == Some(m.disk[t].id))
  }

  lemma ReloadSimulates(c: Codec, backend: Backend, provider: ProviderId, s: Store, m: L.State,
                        loaded: map<KeyTriple, KeyInfo>)
    requires Refines(c, backend.decode, provider, s, m)
    requires Reload.Holds(c, s.disk, loaded, iset f | Reload.Reached(s.disk, f))
    ensures Reloads(backend, provider, m, loaded)
  {
    forall t | t in m.disk && L.IsListed(t) ensures t in loaded && t.provider == provider && m.disk[t].Good? {
      FileIsReloaded(c, backend.decode, provider, s, m.mem, m.disk, loaded, t);
    }
    forall t | t in loaded && t.provider == provider
      ensures t in m.disk && L.IsListed(t) && m.disk[t].Good? && backend.decode(loaded[t].id) == Some(m.disk[t].id)
    {
      ReloadedIsGood(c, backend.decode, provider, s, m.mem, m.disk, loaded, t);
      Reload.HeldIsRead(c, s.disk, loaded, t);
    }
  }

  /** The backend backs a reloaded mapping exactly when the machine keeps it. */
  lemma BackedIsKept(backend: Backend, provider: ProviderId, m: L.State, loaded: map<KeyTriple, KeyInfo>, t: KeyTriple)
    requires Reloads(backend, provider, m, loaded) && Answers(backend, m)
    ensures t in L.Kept(m) <==> t in loaded && t.provider == provider && backend.Backs(loaded[t])
    ensures t in L.Kept(m) ==> backend.decode(loaded[t].id) == Some(L.Kept(m)[t])
    ensures Unbacked(backend, loaded, provider, t) <==> t in m.disk && L.IsListed(t) && t !in L.Kept(m)
  {
    if t in m.disk && L.IsListed(t) {
      assert t in loaded && m.disk[t].Good? && backend.decode(loaded[t].id) == Some(m.disk[t].id);
    }
  }

  lemma KeptIsReconciled(backend: Backend, provider: ProviderId, m: L.State, loaded: map<KeyTriple, KeyInfo>)
    requires Reloads(backend, provider, m, loaded) && Answers(backend, m)
    ensures backend.Ids(backend.Reconciled(loaded, provider), provider) == L.Kept(m)
  {
    var ids, kept := backend.Ids(backend.Reconciled(loaded, provider), provider), L.Kept(m);
    forall t ensures (t in ids <==> t in kept) && (t in ids ==> ids[t] == kept[t]) {
      BackedIsKept(backend, provider, m, loaded, t);
    }
  }

  lemma CleaningKeepsSaved(d: FileTree, d': FileTree, triples: iset<KeyTriple>)
    requires Saved(d) && Lost(d, d', triples)
    ensures Saved(d')
  {
    forall t: KeyTriple | t.key != [] && PathOf(t) in d'.files ensures HasDirs(d', DirOf(t)) {
      assert HasDirs(d, DirOf(t));
    }
  }

  lemma LostFile(d: FileTree, d': FileTree, triples: iset<KeyTriple>, t: KeyTriple)
    requires Lost(d, d', triples) && t !in triples
    ensures FileAt(d', PathOf(t)) == FileAt(d, PathOf(t))
  {
    if PathOf(t) in d.files && PathOf(t) !in d'.files {
      var u :| u in triples && PathOf(t) == PathOf(u);
      PathOfInjective(t, u);
    }
  }

  /** What the restart makes of the files. */
  function KeptFiles(m: L.State): (r: map<KeyTriple, L.File>) {
    map t | t in m.disk && (t in L.Kept(m) || !L.IsListed(t)) :: m.disk[t]
  }

  lemma StartedAt(c: Codec, backend: Backend, provider: ProviderId, s: Store, m: L.State, loaded: map<KeyTriple, KeyInfo>,
                  after: Store, t: KeyTriple)
    requires RelatedAt(c, backend.decode, s, m.mem, m.disk, t) && t.provider == provider
    requires Reloads(backend, provider, m, loaded) && Answers(backend, m)
    requires after.mem == backend.Reconciled(loaded, provider)
    requires Cleaned(backend, Store(loaded, s.disk), after.disk, provider, true)
    ensures RelatedAt(c, backend.decode, after, L.Kept(m), KeptFiles(m), t)
  {
    BackedIsKept(backend, provider, m, loaded, t);
    if Unbacked(backend, loaded, provider, t) {
      assert PathOf(t) !in after.disk.files;
    } else {
      LostFile(s.disk, after.disk, (iset u | Unbacked(backend, loaded, provider, u)), t);
      assert FileAt(after.disk, PathOf(t)) == FileAt(s.disk, PathOf(t));
    }
  }

  lemma StartedRelates(c: Codec, backend: Backend, provider: ProviderId, s: Store, m: L.State,
                       loaded: map<KeyTriple, KeyInfo>, after: Store)
    requires Refines(c, backend.decode, provider, s, m)
    requires Reloads(backend, provider, m, loaded) && Answers(backend, m)
    requires after.mem == backend.Reconciled(loaded, provider)
    requires Cleaned(backend, Store(loaded, s.disk), after.disk, provider, true)
    ensures Saved(after.disk) && Related(c, backend.decode, provider, after, L.Kept(m), KeptFiles(m))
  {
    CleaningKeepsSaved(s.disk, after.disk, iset t | Unbacked(backend, loaded, provider, t));
    forall t: KeyTriple | t.provider == provider ensures RelatedAt(c, backend.decode, after, L.Kept(m), KeptFiles(m), t) {
      StartedAt(c, backend, provider, s, m, loaded, after, t);
    }
  }

  lemma RestartStep(m: L.State, top: nat)
    requires L.Enabled(m, L.Restart(top))
    ensures L.Step(m, L.Restart(top)).mem == L.Kept(m) && L.Step(m, L.Restart(top)).disk == KeptFiles(m)
  {
  }

  /** A reload followed by reconciliation is the machine's restart: same mappings, same files, same greatest id. */
  lemma RestartSimulates(c: Codec, backend: Backend, provider: ProviderId, s: Store, m: L.State,
                         loaded: map<KeyTriple, KeyInfo>, after: Store, top: nat)
    requires Refines(c, backend.decode, provider, s, m) && !m.up && Answers(backend, m)
    requires Reload.Holds(c, s.disk, loaded, iset f | Reload.Reached(s.disk, f))
    requires after.mem == backend.Reconciled(loaded, provider)
    requires Cleaned(backend, Store(loaded, s.disk), after.disk, provider, true)
    requires L.IsTop(backend.Ids(after.mem, provider), top)
    ensures L.Enabled(m, L.Restart(top)) && Refines(c, backend.decode, provider, after, L.Step(m, L.Restart(top)))
  {
    ReloadSimulates(c, backend, provider, s, m, loaded);
    KeptIsReconciled(backend, provider, m, loaded);
    StartedRelates(c, backend, provider, s, m, loaded, after);
    RestartStep(m, top);
  }

  /** The files that a start-up has removed before it stopped. */
  function RemovedBy(m: L.State, disk: FileTree): (r: set<KeyTriple>) {
    set t | t in m.disk && PathOf(t) !in disk.files
  }

  lemma RemovedIsUnbacked(c: Codec, backend: Backend, provider: ProviderId, s: Store, m: L.State,
                          loaded: map<KeyTriple, KeyInfo>, disk: FileTree, t: KeyTriple)
    requires Related(c, backend.decode, provider, s, m.mem, m.disk) && t in RemovedBy(m, disk)
    requires Cleaned(backend, Store(loaded, s.disk), disk, provider, false)
    ensures Unbacked(backend, loaded, provider, t)
  {
    assert RelatedAt(c, backend.decode, s, m.mem, m.disk, t);
    if !Unbacked(backend, loaded, provider, t) {
      LostFile(s.disk, disk, (iset u | Unbacked(backend, loaded, provider, u)), t);
    }
  }

  lemma StoppedAt(c: Codec, decode: seq<Byte> -> Option<nat>, s: Store, m: L.State, disk: FileTree, t: KeyTriple)
    requires RelatedAt(c, decode, s, m.mem, m.disk, t)
    requires forall p | p in disk.files :: p in s.disk.files && disk.files[p] == s.disk.files[p]
    ensures RelatedAt(c, decode, Store(map[], disk), map[], m.disk - RemovedBy(m, disk), t)
  {
  }

  lemma StopStep(m: L.State, removed: set<KeyTriple>)
    requires L.Enabled(m, L.StartUpFails(removed))
    ensures var m' := L.Step(m, L.StartUpFails(removed)); m'.mem == m.mem && m'.disk == m.disk - removed
  {
  }

  /** A start-up that stops while it removes mappings is the machine's failed start-up with the files it removed. */
  lemma StoppedStartSimulates(c: Codec, backend: Backend, provider: ProviderId, s: Store, m: L.State,
                              loaded: map<KeyTriple, KeyInfo>, disk: FileTree)
    requires Refines(c, backend.decode, provider, s, m) && !m.up && m.mem == map[] && Answers(backend, m)
    requires Reload.Holds(c, s.disk, loaded, iset f | Reload.Reached(s.disk, f))
    requires Cleaned(backend, Store(loaded, s.disk), disk, provider, false)
    ensures var a := L.StartUpFails(RemovedBy(m, disk));
            L.Enabled(m, a) && Refines(c, backend.decode, provider, Store(map[], disk), L.Step(m, a))
  {
    ReloadSimulates(c, backend, provider, s, m, loaded);
    forall t | t in RemovedBy(m, disk) ensures t !in L.Kept(m) && L.IsListed(t) {
      RemovedIsUnbacked(c, backend, provider, s, m, loaded, disk, t);
      BackedIsKept(backend, provider, m, loaded, t);
    }
    StopStep(m, RemovedBy(m, disk));
    CleaningKeepsSaved(s.disk, disk, iset t | Unbacked(backend, loaded, provider, t));
    forall t: KeyTriple | t.provider == provider
      ensures RelatedAt(c, backend.decode, Store(map[], disk), map[], m.disk - RemovedBy(m, disk), t)
    {
      assert RelatedAt(c, backend.decode, s, m.mem, m.disk, t);
      StoppedAt(c, backend.decode, s, m, disk, t);
    }
  }
}
