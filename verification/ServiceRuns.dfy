/**
 Whole runs of a provider over the byte-level key store: calls of its threads on the store and on the backend,
 calls of other providers on the same store, crashes and starts. Each run is a run of the lifecycle machine,
 so what is proved of the machine holds of the bytes.
 */
module ServiceRuns {
  import opened Types
  import opened OnDiskManager
  import opened StartUp
  import opened StoreRefinement
  import opened LifecycleIds
  import opened LifecycleKeys
  import L = Lifecycle
  import Reload

  /** The serialisation, how ids are read out of mappings, and the provider. */
  datatype Setting = Setting(codec: Codec, decode: seq<Byte> -> Option<nat>, provider: ProviderId)

  ghost predicate Sound(g: Setting) { g.codec.RoundTrips() && PrefixFree(g.codec) }

  /** The shared store, and the machine's threads, backend and id allocator. */
  datatype System = System(store: Store, machine: L.State)

  datatype Call =
    | ThreadCall(a: L.Action)
    | InsertCall(i: nat, info: KeyInfo, fault: SaveFault)
    | RemoveCall(i: nat, fails: bool)
    | OtherCall(e: Event)
    | CrashCall
    | StartCall(loaded: map<KeyTriple, KeyInfo>, after: Store, top: nat)
    | StoppedStartCall(loaded: map<KeyTriple, KeyInfo>, disk: FileTree)
    | FailedStartCall

  /** A step of a thread that does not change the store. */
  predicate IsPlain(a: L.Action) { ByThread(a) && !a.StoreMapping? && !a.StoreMappingFails? && !a.RemoveMapping? }

  /** The backend that start-up asks. */
  function BackendOf(g: Setting, m: L.State): (b: Backend) {
    Backend(g.decode, (id: nat) => if m.kind == L.Ts || L.Live(m, id) then Present else Absent)
  }

  ghost predicate IsReload(g: Setting, v: System, loaded: map<KeyTriple, KeyInfo>) {
    Reload.Holds(g.codec, v.store.disk, loaded, iset f | Reload.Reached(v.store.disk, f))
  }

  /** The calls that can come next. */
  ghost predicate CanCall(g: Setting, v: System, call: Call) {
    var m, backend := v.machine, BackendOf(g, v.machine);
    match call
    case ThreadCall(a) => IsPlain(a) && L.Enabled(m, a)
    case InsertCall(i, info, _) =>
      L.Enabled(m, L.StoreMapping(i)) && m.pcs[i].t.provider == g.provider && g.decode(info.id) == Some(m.pcs[i].id)
    case RemoveCall(i, _) => L.Enabled(m, L.RemoveMapping(i)) && m.pcs[i].t.provider == g.provider
    case OtherCall(e) => e.t.provider != g.provider
    case CrashCall => m.up
    case StartCall(loaded, after, top) =>
      && !m.up && IsReload(g, v, loaded) && after.mem == backend.Reconciled(loaded, g.provider)
      && Cleaned(backend, Store(loaded, v.store.disk), after.disk, g.provider, true)
      && L.IsTop(backend.Ids(after.mem, g.provider), top)
    case StoppedStartCall(loaded, disk) =>
      !m.up && IsReload(g, v, loaded) && Cleaned(backend, Store(loaded, v.store.disk), disk, g.provider, false)
    case FailedStartCall => !m.up
  }

  ghost function StoreAfter(g: Setting, v: System, call: Call): (s: Store)
    requires CanCall(g, v, call)
  {
    match call
    case ThreadCall(_) => v.store
    case InsertCall(i, info, fault) => Insert(g.codec, v.store, v.machine.pcs[i].t, info, fault).0
    case RemoveCall(i, fails) => Remove(v.store, v.machine.pcs[i].t, fails).0
    case OtherCall(e) => Step(g.codec, v.store, e).0
    case CrashCall => Store(map[], v.store.disk)
    case StartCall(_, after, _) => after
    case StoppedStartCall(_, disk) => Store(map[], disk)
    case FailedStartCall => Store(map[], v.store.disk)
  }

  /** The machine's action for a call; a call of another provider is none. */
  ghost function ActionOf(g: Setting, v: System, call: Call): (a: Option<L.Action>)
    requires CanCall(g, v, call)
  {
    match call
    case ThreadCall(a) => Some(a)
    case InsertCall(i, info, fault) =>
      var t := v.machine.pcs[i].t;
      if Insert(g.codec, v.store, t, info, fault).1.Ok? then Some(L.StoreMapping(i))
      else Some(L.StoreMappingFails(i, LeftBy(v.store.disk, t, g.codec.write(info), fault)))
    case RemoveCall(i, fails) =>
      if Remove(v.store, v.machine.pcs[i].t, fails).1.Ok? then Some(L.RemoveMapping(i)) else Some(L.GiveUp(i))
    case OtherCall(_) => None
    case CrashCall => Some(L.Crash)
    case StartCall(_, _, top) => Some(L.Restart(top))
    case StoppedStartCall(_, disk) => Some(L.StartUpFails(RemovedBy(v.machine, disk)))
    case FailedStartCall => Some(L.StartUpFails({}))
  }

  function Moved(m: L.State, a: Option<L.Action>): (r: L.State) {
    if a.Some? && L.Enabled(m, a.value) then L.Step(m, a.value) else m
  }

  ghost function AfterCall(g: Setting, v: System, call: Call): (r: System)
    requires CanCall(g, v, call)
  {
    System(StoreAfter(g, v, call), Moved(v.machine, ActionOf(g, v, call)))
  }

  lemma CallMoves(g: Setting, v: System, call: Call)
    requires CanCall(g, v, call) && ActionOf(g, v, call).Some? && L.Enabled(v.machine, ActionOf(g, v, call).value)
    ensures AfterCall(g, v, call) == System(StoreAfter(g, v, call), L.Step(v.machine, ActionOf(g, v, call).value))
  {
  }

  ghost predicate InStep(g: Setting, v: System) {
    Inv(v.machine) && Refines(g.codec, g.decode, g.provider, v.store, v.machine)
  }

  lemma CreatingStep(m: L.State, a: L.Action)
    requires L.Enabled(m, a) && (a.StartCreate? || a.TakeId? || a.StoreMaximum? || a.DrawId? || a.Abandon?)
    ensures L.Step(m, a).mem == m.mem && L.Step(m, a).disk == m.disk
  {
  }

  lemma MakingStep(m: L.State, a: L.Action)
    requires L.Enabled(m, a) && (a.Make? || a.Undo?)
    ensures L.Step(m, a).mem == m.mem && L.Step(m, a).disk == m.disk
  {
  }

  lemma DestroyingStep(m: L.State, a: L.Action)
    requires L.Enabled(m, a)
    requires || a.StartDestroy? || a.DestroyKey? || a.Find? || a.FindNone? || a.DestroyObject? || a.GiveUp?
             || a.StartUse? || a.Use?
    ensures L.Step(m, a).mem == m.mem && L.Step(m, a).disk == m.disk
  {
  }

  lemma PlainStep(m: L.State, a: L.Action)
    requires L.Enabled(m, a) && IsPlain(a)
    ensures L.Step(m, a).mem == m.mem && L.Step(m, a).disk == m.disk
  {
    if a.StartCreate? || a.TakeId? || a.StoreMaximum? || a.DrawId? || a.Abandon? {
      CreatingStep(m, a);
    } else if a.Make? || a.Undo? {
      MakingStep(m, a);
    } else {
      DestroyingStep(m, a);
    }
  }

  lemma ThreadCallSimulates(g: Setting, v: System, call: Call)
    requires InStep(g, v) && CanCall(g, v, call) && (call.ThreadCall? || call.OtherCall?)
    ensures call.ThreadCall? ==> L.Enabled(v.machine, call.a)
    ensures var r := AfterCall(g, v, call); Refines(g.codec, g.decode, g.provider, r.store, r.machine)
  {
    if call.ThreadCall? {
      PlainStep(v.machine, call.a);
    } else {
      CallKeepsSaved(g.codec, v.store, call.e);
      OtherProvidersDoNotStep(g.codec, g.decode, g.provider, v.store, v.machine.mem, v.machine.disk, call.e);
    }
  }

  lemma InsertCallSimulates(g: Setting, v: System, call: Call)
    requires Sound(g) && InStep(g, v) && CanCall(g, v, call) && call.InsertCall?
    ensures L.Enabled(v.machine, ActionOf(g, v, call).value)
    ensures var r := AfterCall(g, v, call); Refines(g.codec, g.decode, g.provider, r.store, r.machine)
  {
    if Insert(g.codec, v.store, v.machine.pcs[call.i].t, call.info, call.fault).1.Ok? {
      InsertSimulates(g.codec, g.decode, g.provider, v.store, v.machine, call.i, call.info, call.fault);
    } else {
      FailedInsertSimulates(g.codec, g.decode, g.provider, v.store, v.machine, call.i, call.info, call.fault);
    }
    CallMoves(g, v, call);
  }

  lemma RemoveCallSimulates(g: Setting, v: System, call: Call)
    requires InStep(g, v) && CanCall(g, v, call) && call.RemoveCall?
    ensures L.Enabled(v.machine, ActionOf(g, v, call).value)
    ensures var r := AfterCall(g, v, call); Refines(g.codec, g.decode, g.provider, r.store, r.machine)
  {
    RemoveSimulates(g.codec, g.decode, g.provider, v.store, v.machine, call.i, call.fails);
    CallMoves(g, v, call);
  }

  lemma CrashCallSimulates(g: Setting, v: System, call: Call)
    requires InStep(g, v) && CanCall(g, v, call) && call.CrashCall?
    ensures L.Enabled(v.machine, ActionOf(g, v, call).value)
    ensures var r := AfterCall(g, v, call); Refines(g.codec, g.decode, g.provider, r.store, r.machine)
  {
    CrashSimulates(g.codec, g.decode, g.provider, v.store, v.machine);
  }

  lemma BackendAnswers(g: Setting, m: L.State)
    ensures Answers(BackendOf(g, m), m)
  {
  }

  lemma StartSimulates(g: Setting, v: System, loaded: map<KeyTriple, KeyInfo>, after: Store, top: nat)
    requires InStep(g, v) && CanCall(g, v, StartCall(loaded, after, top))
    ensures L.Enabled(v.machine, L.Restart(top))
    ensures Refines(g.codec, g.decode, g.provider, after, L.Step(v.machine, L.Restart(top)))
  {
    BackendAnswers(g, v.machine);
    RestartSimulates(g.codec, BackendOf(g, v.machine), g.provider, v.store, v.machine, loaded, after, top);
  }

  lemma StartCallSimulates(g: Setting, v: System, call: Call)
    requires InStep(g, v) && CanCall(g, v, call) && call.StartCall?
    ensures L.Enabled(v.machine, ActionOf(g, v, call).value)
    ensures var r := AfterCall(g, v, call); Refines(g.codec, g.decode, g.provider, r.store, r.machine)
  {
    StartSimulates(g, v, call.loaded, call.after, call.top);
    CallMoves(g, v, call);
  }

  lemma StoppedStartCallSimulates(g: Setting, v: System, call: Call)
    requires InStep(g, v) && CanCall(g, v, call) && call.StoppedStartCall?
    ensures L.Enabled(v.machine, ActionOf(g, v, call).value)
    ensures var r := AfterCall(g, v, call); Refines(g.codec, g.decode, g.provider, r.store, r.machine)
  {
    BackendAnswers(g, v.machine);
    StoppedStartSimulates(g.codec, BackendOf(g, v.machine), g.provider, v.store, v.machine, call.loaded, call.disk);
  }

  lemma FailedStartCallSimulates(g: Setting, v: System, call: Call)
    requires InStep(g, v) && CanCall(g, v, call) && call.FailedStartCall?
    ensures L.Enabled(v.machine, ActionOf(g, v, call).value)
    ensures var r := AfterCall(g, v, call); Refines(g.codec, g.decode, g.provider, r.store, r.machine)
  {
    var m, s' := v.machine, Store(map[], v.store.disk);
    assert m.disk - {} == m.disk;
    forall t: KeyTriple | t.provider == g.provider ensures RelatedAt(g.codec, g.decode, s', m.mem, m.disk, t) {
      assert RelatedAt(g.codec, g.decode, v.store, m.mem, m.disk, t);
    }
  }

  /** Every call is a step of the machine, or none, and keeps the two in step. */
  lemma CallSimulates(g: Setting, v: System, call: Call)
    requires Sound(g) && InStep(g, v) && CanCall(g, v, call)
    ensures ActionOf(g, v, call).Some? ==> L.Enabled(v.machine, ActionOf(g, v, call).value)
    ensures InStep(g, AfterCall(g, v, call))
  {
    match call {
      case ThreadCall(_) | OtherCall(_) => ThreadCallSimulates(g, v, call);
      case InsertCall(_, _, _) => InsertCallSimulates(g, v, call);
      case RemoveCall(_, _) => RemoveCallSimulates(g, v, call);
      case CrashCall => CrashCallSimulates(g, v, call);
      case StartCall(_, _, _) => StartCallSimulates(g, v, call);
      case StoppedStartCall(_, _) => StoppedStartCallSimulates(g, v, call);
      case FailedStartCall => FailedStartCallSimulates(g, v, call);
    }
    if ActionOf(g, v, call).Some? {
      StepKeepsInv(v.machine, ActionOf(g, v, call).value);
    }
  }

  // ----- Runs -----

  ghost predicate CanRun(g: Setting, v: System, calls: seq<Call>)
    decreases |calls|, 0
  {
    calls == [] ||
    (CanRun(g, v, calls[..|calls| - 1]) && CanCall(g, After(g, v, calls[..|calls| - 1]), calls[|calls| - 1]))
  }

  ghost function After(g: Setting, v: System, calls: seq<Call>): (r: System)
    requires CanRun(g, v, calls)
    decreases |calls|, 1
  {
    if calls == [] then v else AfterCall(g, After(g, v, calls[..|calls| - 1]), calls[|calls| - 1])
  }

  /** The actions of the machine in a run. */
  ghost function Actions(g: Setting, v: System, calls: seq<Call>): (acts: seq<L.Action>)
    requires CanRun(g, v, calls)
  {
    if calls == [] then []
    else
      var before, call := calls[..|calls| - 1], calls[|calls| - 1];
      var a := ActionOf(g, After(g, v, before), call);
      Actions(g, v, before) + (if a.Some? then [a.value] else [])
  }

  /** A service that has never been started, over an empty mappings directory. */
  predicate IsFirst(v: System) { v.store == EMPTY && L.Initial(v.machine) }

  lemma FirstIsInStep(g: Setting, v: System)
    requires IsFirst(v)
    ensures InStep(g, v)
  {
    assert Saved(v.store.disk);
  }

  /** Every run over the byte-level store is a run of the machine that ends in step with it. */
  lemma {:induction false} RunSimulates(g: Setting, v: System, calls: seq<Call>)
    requires Sound(g) && IsFirst(v) && CanRun(g, v, calls)
    ensures InStep(g, After(g, v, calls))
    ensures Runs(v.machine, Actions(g, v, calls), After(g, v, calls).machine)
  {
    if calls == [] {
      FirstIsInStep(g, v);
    } else {
      var before, call := calls[..|calls| - 1], calls[|calls| - 1];
      var w := After(g, v, before);
      RunSimulates(g, v, before);
      CallSimulates(g, w, call);
      if ActionOf(g, w, call).Some? {
        LifecycleIds.RunExtends(v.machine, Actions(g, v, before), ActionOf(g, w, call).value);
      } else {
        assert Actions(g, v, before) + [] == Actions(g, v, before);
      }
    }
  }

  /**
   Mbed Crypto and PKCS 11, over the bytes: after every run with any file, store or backend call failing, crashes,
   restarts and other providers' calls, each stored mapping of the provider has an id that decodes and names a
   live key, provided no two creations of one triple overlap.
   */
  lemma StoredIdsNameLiveKeys(g: Setting, v: System, calls: seq<Call>, t: KeyTriple)
    requires Sound(g) && IsFirst(v) && v.machine.kind != L.Ts && CanRun(g, v, calls)
    requires L.Possible(v.machine, Actions(g, v, calls)) && NeverOverlaps(v.machine, Actions(g, v, calls))
    requires t in After(g, v, calls).store.mem && t.provider == g.provider
    ensures var r := After(g, v, calls);
            g.decode(r.store.mem[t].id).Some? && L.Live(r.machine, g.decode(r.store.mem[t].id).value)
  {
    RunSimulates(g, v, calls);
    MappedIdsAreLive(v.machine, Actions(g, v, calls));
    var r := After(g, v, calls);
    assert RelatedAt(g.codec, g.decode, r.store, r.machine.mem, r.machine.disk, t);
  }

  /** Over the bytes, restarts included: no two mappings of the provider hold one id. */
  lemma StoredIdsAreDistinct(g: Setting, v: System, calls: seq<Call>, t: KeyTriple, u: KeyTriple)
    requires Sound(g) && IsFirst(v) && CanRun(g, v, calls)
    requires var mem := After(g, v, calls).store.mem;
             t in mem && u in mem && t.provider == u.provider == g.provider && g.decode(mem[t].id) == g.decode(mem[u].id)
    ensures t == u
  {
    RunSimulates(g, v, calls);
    var r := After(g, v, calls);
    assert RelatedAt(g.codec, g.decode, r.store, r.machine.mem, r.machine.disk, t);
    assert RelatedAt(g.codec, g.decode, r.store, r.machine.mem, r.machine.disk, u);
  }
}
