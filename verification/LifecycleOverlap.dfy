/**
 Why creations of one triple must not overlap: exactly when a creation leaves a mapping to a dead key,
 and a run of each provider that gets there.
 */
module LifecycleOverlap {
  import opened Types
  import opened IdAllocator
  import opened Lifecycle
  import opened LifecycleIds
  import opened LifecycleKeys
  import opened Pkcs11Token

  // ----- Exactly when a creation breaks the map -----

  /** The state once a thread that undoes its key has tried all its objects and returned, every call working. */
  function RolledBack(s: State, i: nat): (r: State)
    requires s.up && i < |s.pcs|
    decreases if s.pcs[i].Undoing? then |s.pcs[i].handles| + 1 else 0
  {
    if s.pcs[i].Undoing? then RolledBack(Step(s, Undo(i, true)), i) else s
  }

  /** The state after a thread has stored its mapping and, if it then must, undone its key. */
  function StoredAndUndone(s: State, i: nat): (r: State)
    requires Enabled(s, StoreMapping(i))
  {
    RolledBack(Step(s, StoreMapping(i)), i)
  }

  /** An object of the thread's id that the thread did not make. */
  predicate Spare(s: State, pc: Pc)
    requires pc.Made?
  {
    exists h | h in s.objs && h !in pc.handles :: s.objs[h].id == pc.id
  }

  lemma UndoOne(s: State, i: nat)
    requires s.up && i < |s.pcs| && s.pcs[i].Undoing?
    ensures var pc, s' := s.pcs[i], Step(s, Undo(i, true));
            && s'.up && s'.mem == s.mem && s'.kind == s.kind
            && (if pc.handles == [] then s'.objs == s.objs && s'.pcs == s.pcs[i := Idle]
                else s'.objs == s.objs - {pc.handles[0]} && s'.pcs == s.pcs[i := pc.(handles := pc.handles[1..])])
  {
  }

  /** A rollback takes away the objects it was given, and nothing else. */
  lemma {:induction false} RollbackTakes(s: State, i: nat)
    requires s.up && i < |s.pcs| && s.pcs[i].Undoing?
    ensures var r := RolledBack(s, i);
            r.mem == s.mem && r.pcs == s.pcs[i := Idle] && r.objs == s.objs - (set h | h in s.pcs[i].handles)
    decreases |s.pcs[i].handles|
  {
    var pc, s' := s.pcs[i], Step(s, Undo(i, true));
    UndoOne(s, i);
    if pc.handles == [] {
      assert s'.pcs[i].Idle?;
    } else {
      RollbackTakes(s', i);
      assert forall h :: h in pc.handles <==> h == pc.handles[0] || h in pc.handles[1..];
    }
  }

  lemma {:induction false} RollbackIsReachable(s: State, i: nat)
    requires Reachable(s) && s.up && i < |s.pcs|
    ensures Reachable(RolledBack(s, i))
    decreases if s.pcs[i].Undoing? then |s.pcs[i].handles| + 1 else 0
  {
    if !s.pcs[i].Undoing? {
      assert RolledBack(s, i) == s;
    } else {
      UndoOne(s, i);
      ReachableExtends(s, Undo(i, true));
      RollbackIsReachable(Step(s, Undo(i, true)), i);
    }
  }

  lemma StoreOver(s: State, i: nat)
    requires Enabled(s, StoreMapping(i))
    ensures var pc, s1 := s.pcs[i], Step(s, StoreMapping(i));
            && s1.up && s1.mem == s.mem[pc.t := pc.id] && s1.objs == s.objs && |s1.pcs| == |s.pcs|
            && s1.pcs[i] == if pc.t in s.mem then Undoing(pc.t, pc.id, pc.handles, true) else Idle
  {
  }

  lemma StoreNewMappingKeeps(s: State, s1: State, pc: Pc)
    requires MappedLive(s) && pc.Made? && HandlesFit(s, pc) && s1.mem == s.mem[pc.t := pc.id] && s1.objs == s.objs
    ensures MappedLive(s1)
  {
    assert pc.handles[0] in pc.handles;
    forall t | t in s1.mem ensures Live(s1, s1.mem[t]) {
      if t != pc.t {
        assert Live(s, s.mem[t]);
      }
    }
  }

  /** After an overwrite and its rollback, the new mapping is live exactly when there was a spare object. */
  lemma StoreOverMappingNeedsSpare(s: State, r: State, pc: Pc)
    requires IdsAreOwned(s) && OwnId(s, pc) && Detached(s, pc) && HandlesFit(s, pc) && pc.Made? && MappedLive(s)
    requires r.mem == s.mem[pc.t := pc.id] && r.objs == s.objs - (set h | h in pc.handles)
    ensures MappedLive(r) <==> Spare(s, pc)
  {
    if h :| h in s.objs && h !in pc.handles && s.objs[h].id == pc.id {
      assert h in r.objs;
    }
    assert r.mem[pc.t] == pc.id;
    forall t | t in s.mem && t != pc.t ensures Live(r, r.mem[t]) {
      assert s.mem[t] != pc.id;
      var h :| h in s.objs && s.objs[h].id == s.mem[t];
      assert h in r.objs;
    }
  }

  /**
   Every provider, from any reachable state in which all mapped ids are live: storing the mapping of a new
   key, with the rollback that an overwrite triggers, leaves all mapped ids live if and only if the triple
   had no mapping or the backend has an object of the new id that the creation did not make.
   */
  lemma OverwriteIsTheFlaw(s: State, i: nat)
    requires Reachable(s) && MappedLive(s) && Enabled(s, StoreMapping(i))
    ensures var r := StoredAndUndone(s, i); Reachable(r) && i < |r.pcs| && r.pcs[i].Idle?
    ensures MappedLive(StoredAndUndone(s, i)) <==> s.pcs[i].t !in s.mem || Spare(s, s.pcs[i])
  {
    var pc, s1 := s.pcs[i], Step(s, StoreMapping(i));
    ReachableHandles(s);
    assert OwnId(s, pc) && Detached(s, pc) && HandlesFit(s, pc);
    ReachableExtends(s, StoreMapping(i));
    RollbackIsReachable(s1, i);
    StoreOver(s, i);
    if pc.t in s.mem {
      RollbackTakes(s1, i);
      StoreOverMappingNeedsSpare(s, RolledBack(s1, i), pc);
    } else {
      StoreNewMappingKeeps(s, s1, pc);
    }
  }

  // ----- Where there are no spare objects -----

  /** A key that has just been made has all the objects of its id. */
  predicate Sole(s: State, pc: Pc) { pc.Made? ==> !Spare(s, pc) }

  predicate AllSole(s: State) { forall i | 0 <= i < |s.pcs| :: Sole(s, s.pcs[i]) }

  lemma MakeIsSole(s: State, a: Action, pc: Pc)
    requires ThreadEnabled(s, a, pc) && a.Make? && !Live(s, pc.id)
    ensures Sole(ThreadStep(s, a, pc).0, ThreadStep(s, a, pc).1)
  {
  }

  lemma OnlyMakeMakes(s: State, a: Action, pc: Pc)
    requires ThreadEnabled(s, a, pc) && !a.Make?
    ensures !ThreadStep(s, a, pc).1.Made?
  {
  }

  lemma SoleSurvives(s: State, s1: State, i: nat, pc': Pc)
    requires Inv(s) && HandlesOk(s) && AllSole(s) && i < |s.pcs| && ObjSource(s, s1, s.pcs[i], pc') && Sole(s1, pc')
    ensures AllSole(s1.(pcs := s.pcs[i := pc']))
  {
    var s' := s1.(pcs := s.pcs[i := pc']);
    forall j, h | 0 <= j < |s'.pcs| && s'.pcs[j].Made? && h in s'.objs && h !in s'.pcs[j].handles
      ensures s'.objs[h].id != s'.pcs[j].id
    {
      if j != i {
        assert Sole(s, s.pcs[j]) && Apart(s, j);
      }
    }
  }

  lemma StepKeepsSole(s: State, a: Action)
    requires Inv(s) && HandlesOk(s) && AllSole(s) && Enabled(s, a) && ByThread(a)
    requires a.Make? ==> !Live(s, s.pcs[a.i].id)
    ensures AllSole(Step(s, a))
  {
    var pc := s.pcs[a.i];
    assert HandlesFit(s, pc);
    ThreadStepObjects(s, a, pc);
    if a.Make? {
      MakeIsSole(s, a, pc);
    } else {
      OnlyMakeMakes(s, a, pc);
    }
    SoleSurvives(s, ThreadStep(s, a, pc).0, a.i, ThreadStep(s, a, pc).1);
  }

  lemma StopKeepsSole(s: State, a: Action)
    requires Inv(s) && AllSole(s) && Enabled(s, a) && !ByThread(a)
    ensures AllSole(Step(s, a))
  {
  }

  lemma {:induction false} RunKeepsSole(s: State, acts: seq<Action>)
    requires Inv(s) && HandlesOk(s) && AllSole(s) && s.kind != P11 && Possible(s, acts)
    ensures AllSole(Exec(s, acts)) && Exec(s, acts).kind == s.kind
  {
    if acts == [] {
      assert Exec(s, acts) == s;
    } else {
      var before, a := acts[..|acts| - 1], acts[|acts| - 1];
      RunKeepsSole(s, before);
      RunKeepsHandles(s, before);
      if ByThread(a) {
        StepKeepsSole(Exec(s, before), a);
      } else {
        StopKeepsSole(Exec(s, before), a);
      }
      StepKeepsKind(Exec(s, before), a);
    }
  }

  lemma {:induction false} RunKeepsSoleOnToken(s: State, acts: seq<Action>)
    requires Inv(s) && HandlesOk(s) && AllSole(s) && TokenOk(s)
    requires Possible(s, acts) && forall a | a in acts :: ByThread(a)
    ensures AllSole(Exec(s, acts))
  {
    if acts == [] {
      assert Exec(s, acts) == s;
    } else {
      var before, a := acts[..|acts| - 1], acts[|acts| - 1];
      assert forall b | b in before :: b in acts;
      RunKeepsSoleOnToken(s, before);
      RunKeepsHandles(s, before);
      RunKeepsToken(s, before);
      assert a in acts;
      assert TokenFits(Exec(s, before), Exec(s, before).pcs[a.i]);
      StepKeepsSole(Exec(s, before), a);
    }
  }

  lemma ReachableIsSole(s: State)
    requires Reachable(s) && s.kind != P11
    ensures AllSole(s)
  {
    var s0, acts :| Initial(s0) && Possible(s0, acts) && s == Exec(s0, acts);
    RunKeepsKind(s0, acts);
    RunKeepsSole(s0, acts);
  }

  /** Mbed Crypto and Trusted Service: an overwrite always leaves a dead mapping. */
  lemma OverwriteKillsPsaKeys(s: State, i: nat)
    requires Reachable(s) && s.kind != P11 && MappedLive(s) && Enabled(s, StoreMapping(i))
    ensures MappedLive(StoredAndUndone(s, i)) <==> s.pcs[i].t !in s.mem
  {
    ReachableIsSole(s);
    assert Sole(s, s.pcs[i]);
    OverwriteIsTheFlaw(s, i);
  }

  /** PKCS 11 in every run from a clean token: the same. */
  lemma OverwriteKillsTokenKeys(s: State, acts: seq<Action>, i: nat)
    requires Reachable(s) && CleanToken(s) && Possible(s, acts) && forall a | a in acts :: ByThread(a)
    requires MappedLive(Exec(s, acts)) && Enabled(Exec(s, acts), StoreMapping(i))
    ensures MappedLive(StoredAndUndone(Exec(s, acts), i)) <==> Exec(s, acts).pcs[i].t !in Exec(s, acts).mem
  {
    ReachableHandles(s);
    CleanIsOk(s);
    RunKeepsSoleOnToken(s, acts);
    ReachableRuns(s, acts);
    assert Sole(Exec(s, acts), Exec(s, acts).pcs[i]);
    OverwriteIsTheFlaw(Exec(s, acts), i);
  }

  // ----- A run of two overlapping creations -----

  function OverlapAction(n: nat, kind: Kind, t: KeyTriple): (a: Action) {
    if n == 0 then Restart(1)
    else if n == 1 then StartCreate(0, t)
    else if n == 2 then StartCreate(1, t)
    else if n == 3 then if kind == P11 then DrawId(0, 2) else TakeId(0)
    else if n == 4 then Make(0, false)
    else if n == 5 then StoreMapping(0)
    else if n == 6 then if kind == P11 then DrawId(1, 3) else TakeId(1)
    else if n == 7 then Make(1, false)
    else if n == 8 then StoreMapping(1)
    else Undo(1, true)
  }

  function OverlapObjects(n: nat, kind: Kind): (r: map<nat, Object>) {
    var part := if kind == P11 then Public else Whole;
    if n < 5 then map[] else if n < 8 || n >= 10 then map[0 := Object(2, part)]
    else map[0 := Object(2, part), 1 := Object(3, part)]
  }

  /** The first thread creates a key; the second one, having checked before, overwrites it and undoes its own. */
  function OverlapState(n: nat, kind: Kind, t: KeyTriple): (s: State) {
    State(kind, n > 0,
          if n < 6 then map[] else if n < 9 then map[t := 2] else map[t := 3],
          if n < 6 then map[] else if n < 9 then map[t := Good(2)] else map[t := Good(3)],
          OverlapObjects(n, kind), if n < 5 then 0 else if n < 8 then 1 else 2,
          if n == 0 then ByDraw({})
          else if kind == P11 then ByDraw(if n < 4 then {} else if n < 7 then {2} else {2, 3})
          else ByCounter(Counter(if n < 4 then 1 else if n < 7 then 2 else 3, {})),
          if n < 4 then map[] else if n < 7 then map[2 := t] else map[2 := t, 3 := t],
          [if n == 2 || n == 3 then Checked(t) else if n == 4 then Granted(t, 2)
           else if n == 5 then Made(t, 2, [0]) else Idle,
           if n < 3 || n > 10 then Idle else if n < 7 then Checked(t) else if n == 7 then Granted(t, 3)
           else if n == 8 then Made(t, 3, [1]) else Undoing(t, 3, if n == 9 then [1] else [], true)],
          if kind != Mbed then None else if n == 5 then Some(0) else if 8 <= n < 11 then Some(1) else None)
  }

  lemma BothCheck(n: nat, kind: Kind, t: KeyTriple)
    requires n < 3
    ensures Enabled(OverlapState(n, kind, t), OverlapAction(n, kind, t))
    ensures Step(OverlapState(n, kind, t), OverlapAction(n, kind, t)) == OverlapState(n + 1, kind, t)
  {
    assert n == 0 ==> Kept(OverlapState(n, kind, t)) == map[];
    var s, e := Step(OverlapState(n, kind, t), OverlapAction(n, kind, t)), OverlapState(n + 1, kind, t);
    assert s.mem == e.mem && s.disk == e.disk && s.owner == e.owner && s.objs == e.objs && s.alloc == e.alloc;
    assert s.pcs[0] == e.pcs[0] && s.pcs[1] == e.pcs[1];
    assert s.pcs == e.pcs;
  }

  lemma FirstTakes(n: nat, kind: Kind, t: KeyTriple)
    requires n == 3
    ensures Enabled(OverlapState(n, kind, t), OverlapAction(n, kind, t))
    ensures Step(OverlapState(n, kind, t), OverlapAction(n, kind, t)) == OverlapState(n + 1, kind, t)
  {
    var s, e := Step(OverlapState(n, kind, t), OverlapAction(n, kind, t)), OverlapState(n + 1, kind, t);
    assert s.mem == e.mem && s.disk == e.disk && s.owner == e.owner && s.objs == e.objs && s.alloc == e.alloc;
    assert s.pcs[0] == e.pcs[0] && s.pcs[1] == e.pcs[1];
    assert s.pcs == e.pcs;
  }

  lemma SecondTakes(n: nat, kind: Kind, t: KeyTriple)
    requires n == 6
    ensures Enabled(OverlapState(n, kind, t), OverlapAction(n, kind, t))
    ensures Step(OverlapState(n, kind, t), OverlapAction(n, kind, t)) == OverlapState(n + 1, kind, t)
  {
    var s, e := Step(OverlapState(n, kind, t), OverlapAction(n, kind, t)), OverlapState(n + 1, kind, t);
    assert s.mem == e.mem && s.disk == e.disk && s.owner == e.owner && s.objs == e.objs && s.alloc == e.alloc;
    assert s.pcs[0] == e.pcs[0] && s.pcs[1] == e.pcs[1];
    assert s.pcs == e.pcs;
  }

  lemma MakeStep(n: nat, kind: Kind, t: KeyTriple)
    requires n == 4 || n == 7
    ensures Enabled(OverlapState(n, kind, t), OverlapAction(n, kind, t))
    ensures Step(OverlapState(n, kind, t), OverlapAction(n, kind, t)) == OverlapState(n + 1, kind, t)
  {
    var s, e := Step(OverlapState(n, kind, t), OverlapAction(n, kind, t)), OverlapState(n + 1, kind, t);
    assert s.mem == e.mem && s.disk == e.disk && s.owner == e.owner && s.objs == e.objs && s.alloc == e.alloc;
    assert s.pcs[0] == e.pcs[0] && s.pcs[1] == e.pcs[1];
    assert s.pcs == e.pcs;
  }

  lemma FirstStores(n: nat, kind: Kind, t: KeyTriple)
    requires n == 5
    ensures Enabled(OverlapState(n, kind, t), OverlapAction(n, kind, t))
    ensures Step(OverlapState(n, kind, t), OverlapAction(n, kind, t)) == OverlapState(n + 1, kind, t)
  {
    var s, e := Step(OverlapState(n, kind, t), OverlapAction(n, kind, t)), OverlapState(n + 1, kind, t);
    assert s.mem == e.mem && s.disk == e.disk && s.owner == e.owner && s.objs == e.objs && s.alloc == e.alloc;
    assert s.pcs[0] == e.pcs[0] && s.pcs[1] == e.pcs[1];
    assert s.pcs == e.pcs;
  }

  lemma SecondStores(n: nat, kind: Kind, t: KeyTriple)
    requires n == 8
    ensures Enabled(OverlapState(n, kind, t), OverlapAction(n, kind, t))
    ensures Step(OverlapState(n, kind, t), OverlapAction(n, kind, t)) == OverlapState(n + 1, kind, t)
  {
    var s, e := Step(OverlapState(n, kind, t), OverlapAction(n, kind, t)), OverlapState(n + 1, kind, t);
    assert s.mem == e.mem && s.disk == e.disk && s.owner == e.owner && s.objs == e.objs && s.alloc == e.alloc;
    assert s.pcs[0] == e.pcs[0] && s.pcs[1] == e.pcs[1];
    assert s.pcs == e.pcs;
  }

  lemma SecondUndoes(n: nat, kind: Kind, t: KeyTriple)
    requires 9 <= n < 11
    ensures Enabled(OverlapState(n, kind, t), OverlapAction(n, kind, t))
    ensures Step(OverlapState(n, kind, t), OverlapAction(n, kind, t)) == OverlapState(n + 1, kind, t)
  {
    assert [1][1..] == [];
    var s, e := Step(OverlapState(n, kind, t), OverlapAction(n, kind, t)), OverlapState(n + 1, kind, t);
    assert s.mem == e.mem && s.disk == e.disk && s.owner == e.owner && s.objs == e.objs && s.alloc == e.alloc;
    assert s.pcs[0] == e.pcs[0] && s.pcs[1] == e.pcs[1];
    assert s.pcs == e.pcs;
  }

  lemma OverlapStep(n: nat, kind: Kind, t: KeyTriple)
    requires n < 11
    ensures Enabled(OverlapState(n, kind, t), OverlapAction(n, kind, t))
    ensures Step(OverlapState(n, kind, t), OverlapAction(n, kind, t)) == OverlapState(n + 1, kind, t)
  {
    if n < 3 {
      BothCheck(n, kind, t);
    } else if n == 3 {
      FirstTakes(n, kind, t);
    } else if n == 6 {
      SecondTakes(n, kind, t);
    } else if n == 4 || n == 7 {
      MakeStep(n, kind, t);
    } else if n == 5 {
      FirstStores(n, kind, t);
    } else if n == 8 {
      SecondStores(n, kind, t);
    } else {
      SecondUndoes(n, kind, t);
    }
  }

  lemma {:induction false} OverlapStateIsReachable(n: nat, kind: Kind, t: KeyTriple)
    requires n <= 11
    ensures Reachable(OverlapState(n, kind, t))
  {
    if n == 0 {
      var s := OverlapState(0, kind, t);
      assert Possible(s, []) && Exec(s, []) == s;
    } else {
      OverlapStateIsReachable(n - 1, kind, t);
      OverlapStep(n - 1, kind, t);
      ReachableExtends(OverlapState(n - 1, kind, t), OverlapAction(n - 1, kind, t));
    }
  }

  /** The hypothesis is needed for every provider: two overlapping creations end, both threads idle, in a dead mapping. */
  lemma OverlapBreaksTheMap(kind: Kind, t: KeyTriple)
    ensures exists s :: Reachable(s) && s.kind == kind && !MappedLive(s) && forall i | 0 <= i < |s.pcs| :: s.pcs[i].Idle?
  {
    var s := OverlapState(11, kind, t);
    OverlapStateIsReachable(11, kind, t);
    assert s.mem[t] == 3 && !Live(s, 3);
    assert forall i | 0 <= i < |s.pcs| :: s.pcs[i].Idle?;
  }
}
