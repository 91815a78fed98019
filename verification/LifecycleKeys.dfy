/**
 Mappings and backend keys in the lifecycle machine: when every mapped id names a live key.
 */
module LifecycleKeys {
  import opened Types
  import opened Lifecycle
  import opened LifecycleIds

  /** Every id in the map names a live backend key. */
  predicate MappedLive(s: State) { forall t | t in s.mem :: Live(s, s.mem[t]) }

  /** No creation has stored its mapping over one that was already there. */
  predicate NoOverwrite(s: State) { forall i | 0 <= i < |s.pcs| :: !(s.pcs[i].Undoing? && s.pcs[i].overwrote) }

  /** No two creations of one triple overlap. */
  predicate NonOverlap(s: State) {
    forall i, j | 0 <= i < j < |s.pcs| && Creating(s.pcs[i]) && Creating(s.pcs[j]) :: s.pcs[i].t != s.pcs[j].t
  }

  /** The handles a thread holds belong to its id, and those of a key just made are all there. */
  predicate HandlesFit(s: State, pc: Pc) {
    && (pc.Made? ==> pc.handles != [] && (s.kind != P11 ==> |pc.handles| == 1)
                     && forall h | h in pc.handles :: h in s.objs && s.objs[h].id == pc.id)
    && (pc.Undoing? ==> forall h | h in pc.handles :: h < s.next && (h in s.objs ==> s.objs[h].id == pc.id))
    && (pc.Found? ==> pc.h < s.next && (pc.h in s.objs ==> s.objs[pc.h].id == pc.id))
  }

  predicate HandlesOk(s: State) {
    && (forall h | h in s.objs :: h < s.next)
    && (forall i | 0 <= i < |s.pcs| :: HandlesFit(s, s.pcs[i]))
  }

  /** How the backend changes: new objects of a granted id, or the loss of objects of a thread's own id. */
  predicate ObjSource(s: State, s': State, pc: Pc, pc': Pc) {
    || (s'.objs == s.objs && s'.next == s.next)
    || (pc.Granted? && pc'.Made? && pc'.id == pc.id && s'.next >= s.next && s'.mem == s.mem
        && (forall h | h in s.objs :: h < s.next ==> h in s'.objs && s'.objs[h] == s.objs[h])
        && (forall h | h in s'.objs && h !in s.objs :: s.next <= h < s'.next && s'.objs[h].id == pc.id))
    || (Destroying(pc) && s'.next == s.next && s'.mem == s.mem
        && (forall h | h in s'.objs :: h in s.objs && s'.objs[h] == s.objs[h])
        && (forall h | h in s.objs && h !in s'.objs :: s.objs[h].id == pc.id))
  }

  lemma MakeObjects(s: State, a: Action, pc: Pc)
    requires ThreadEnabled(s, a, pc) && a.Make? && forall h | h in s.objs :: h < s.next
    ensures var (s', pc') := ThreadStep(s, a, pc);
            ObjSource(s, s', pc, pc') && HandlesFit(s', pc') && forall h | h in s'.objs :: h < s'.next
  {
  }

  lemma UndoObjects(s: State, a: Action, pc: Pc)
    requires ThreadEnabled(s, a, pc) && a.Undo? && HandlesFit(s, pc) && forall h | h in s.objs :: h < s.next
    ensures var (s', pc') := ThreadStep(s, a, pc);
            ObjSource(s, s', pc, pc') && HandlesFit(s', pc') && forall h | h in s'.objs :: h < s'.next
  {
    if pc.handles != [] {
      assert pc.handles[0] in pc.handles && forall h | h in pc.handles[1..] :: h in pc.handles;
    }
  }

  lemma ThreadStepObjects(s: State, a: Action, pc: Pc)
    requires ThreadEnabled(s, a, pc) && HandlesFit(s, pc) && forall h | h in s.objs :: h < s.next
    ensures var (s', pc') := ThreadStep(s, a, pc);
            ObjSource(s, s', pc, pc') && HandlesFit(s', pc') && forall h | h in s'.objs :: h < s'.next
  {
    if a.Make? {
      MakeObjects(s, a, pc);
    } else if a.Undo? {
      UndoObjects(s, a, pc);
    }
  }

  lemma StepKeepsHandles(s: State, a: Action)
    requires Inv(s) && HandlesOk(s) && Enabled(s, a) && ByThread(a)
    ensures HandlesOk(Step(s, a)) && ObjSource(s, Step(s, a), s.pcs[a.i], Step(s, a).pcs[a.i])
  {
    var pc := s.pcs[a.i];
    ThreadStepObjects(s, a, pc);
    HandlesSurvive(s, ThreadStep(s, a, pc).0, a.i, ThreadStep(s, a, pc).1);
  }

  /** A thread's change of the backend does not touch the objects of a key that another thread has just made. */
  lemma HandlesSurvive(s: State, s1: State, i: nat, pc': Pc)
    requires Inv(s) && HandlesOk(s) && i < |s.pcs| && ObjSource(s, s1, s.pcs[i], pc') && s1.kind == s.kind
    requires HandlesFit(s1, pc') && forall h | h in s1.objs :: h < s1.next
    ensures HandlesOk(s1.(pcs := s.pcs[i := pc']))
  {
    var s' := s1.(pcs := s.pcs[i := pc']);
    forall j | 0 <= j < |s'.pcs| ensures HandlesFit(s', s'.pcs[j]) {
      if j != i {
        assert HandlesFit(s, s.pcs[j]) && Apart(s, j);
      }
    }
  }

  /** A step keeps every mapped id live, if no thread is undoing a key whose mapping it has just stored. */
  lemma MoveKeepsMappedLive(s: State, s': State, i: nat)
    requires Inv(s) && HandlesOk(s) && MappedLive(s) && NoOverwrite(s)
    requires Moves(s, s', i) && ObjSource(s, s', s.pcs[i], s'.pcs[i])
    ensures MappedLive(s')
  {
    var pc := s.pcs[i];
    assert HandlesFit(s, pc) && Detached(s, pc) && OwnId(s, pc);
    forall t | t in s'.mem ensures Live(s', s'.mem[t]) {
      if t in s.mem && s'.mem[t] == s.mem[t] {
        var h :| h in s.objs && s.objs[h].id == s.mem[t];
        assert h in s'.objs;
      } else {
        assert pc.handles[0] in pc.handles;
        assert s'.objs[pc.handles[0]].id == pc.id;
      }
    }
  }

  lemma StepKeepsMappedLive(s: State, a: Action)
    requires Inv(s) && HandlesOk(s) && MappedLive(s) && NoOverwrite(s) && Enabled(s, a) && ByThread(a)
    ensures MappedLive(Step(s, a))
  {
    StepMoves(s, a);
    StepKeepsHandles(s, a);
    MoveKeepsMappedLive(s, Step(s, a), a.i);
  }

  /** A restart of a provider that asks the backend makes every mapped id live, whatever came before. */
  lemma RestartMakesMappedLive(s: State, a: Action)
    requires Enabled(s, a) && a.Restart? && s.kind != Ts
    ensures MappedLive(Step(s, a))
  {
  }

  /** All states of a run, the first and the last included, satisfy the hypothesis. */
  predicate NeverOverwrites(s: State, acts: seq<Action>)
    requires Possible(s, acts)
    decreases |acts|
  {
    NoOverwrite(Exec(s, acts)) && (acts != [] ==> NeverOverwrites(s, acts[..|acts| - 1]))
  }

  predicate NeverOverlaps(s: State, acts: seq<Action>)
    requires Possible(s, acts)
    decreases |acts|
  {
    NonOverlap(Exec(s, acts)) && (acts != [] ==> NeverOverlaps(s, acts[..|acts| - 1]))
  }

  lemma StepKeepsHandlesOk(s: State, a: Action)
    requires Inv(s) && HandlesOk(s) && Enabled(s, a)
    ensures HandlesOk(Step(s, a))
  {
    if ByThread(a) {
      StepKeepsHandles(s, a);
    }
  }

  lemma {:induction false} RunKeepsHandles(s: State, acts: seq<Action>)
    requires Inv(s) && HandlesOk(s) && Possible(s, acts)
    ensures Inv(Exec(s, acts)) && HandlesOk(Exec(s, acts))
  {
    if acts == [] {
    } else {
      var before := acts[..|acts| - 1];
      RunKeepsHandles(s, before);
      StepKeepsInv(Exec(s, before), acts[|acts| - 1]);
      StepKeepsHandlesOk(Exec(s, before), acts[|acts| - 1]);
    }
  }

  lemma ReachableHandles(s: State)
    requires Reachable(s)
    ensures Inv(s) && HandlesOk(s)
  {
    var s0, run :| Initial(s0) && Possible(s0, run) && s == Exec(s0, run);
    RunKeepsHandles(s0, run);
  }

  /** A run in which no creation overwrites a mapping keeps every mapped id live between two starts. */
  lemma {:induction false} RunKeepsMappedLive(s: State, acts: seq<Action>)
    requires Inv(s) && HandlesOk(s) && MappedLive(s) && Possible(s, acts) && NeverOverwrites(s, acts)
    requires s.kind == Ts ==> forall a | a in acts :: !a.Restart?
    ensures MappedLive(Exec(s, acts))
  {
    if acts == [] {
    } else {
      var before, a := acts[..|acts| - 1], acts[|acts| - 1];
      assert a in acts && forall b | b in before :: b in acts;
      RunKeepsMappedLive(s, before);
      RunKeepsHandles(s, before);
      RunKeepsKind(s, before);
      NextKeepsMappedLive(Exec(s, before), a);
    }
  }

  lemma NextKeepsMappedLive(s: State, a: Action)
    requires Inv(s) && HandlesOk(s) && MappedLive(s) && NoOverwrite(s) && Enabled(s, a) && (s.kind == Ts ==> !a.Restart?)
    ensures MappedLive(Step(s, a))
  {
    if ByThread(a) {
      StepKeepsMappedLive(s, a);
    } else if a.Restart? {
      RestartMakesMappedLive(s, a);
    }
  }

  /** While a creation has not stored its mapping, its triple has none. */
  predicate Clear(s: State, pc: Pc) { Creating(pc) && !pc.Undoing? ==> pc.t !in s.mem }

  predicate AllClear(s: State) { NoOverwrite(s) && forall i | 0 <= i < |s.pcs| :: Clear(s, s.pcs[i]) }

  lemma ThreadStepClears(s: State, a: Action, pc: Pc)
    requires ThreadEnabled(s, a, pc) && Clear(s, pc)
    ensures var (s', pc') := ThreadStep(s, a, pc);
            && Clear(s', pc') && (pc'.Undoing? && pc'.overwrote ==> pc.Undoing? && pc.overwrote)
            && forall t | t in s'.mem && t !in s.mem :: Creating(pc) && t == pc.t
  {
  }

  lemma ClearSurvives(s: State, s1: State, i: nat, pc': Pc)
    requires AllClear(s) && NonOverlap(s) && i < |s.pcs| && Clear(s1, pc') && !(pc'.Undoing? && pc'.overwrote)
    requires forall t | t in s1.mem && t !in s.mem :: Creating(s.pcs[i]) && t == s.pcs[i].t
    ensures AllClear(s1.(pcs := s.pcs[i := pc']))
  {
    var s' := s1.(pcs := s.pcs[i := pc']);
    forall j | 0 <= j < |s'.pcs| ensures Clear(s', s'.pcs[j]) {
      assert Clear(s, s.pcs[j]);
    }
  }

  /** If creations of one triple do not overlap, none of them finds its triple mapped when it stores. */
  lemma StepKeepsClear(s: State, a: Action)
    requires Inv(s) && Enabled(s, a) && AllClear(s) && NonOverlap(s)
    ensures AllClear(Step(s, a))
  {
    if ByThread(a) {
      var pc := s.pcs[a.i];
      assert Clear(s, pc);
      ThreadStepClears(s, a, pc);
      ClearSurvives(s, ThreadStep(s, a, pc).0, a.i, ThreadStep(s, a, pc).1);
    }
  }

  lemma {:induction false} NonOverlapMeansNoOverwrite(s: State, acts: seq<Action>)
    requires Inv(s) && AllClear(s) && Possible(s, acts) && NeverOverlaps(s, acts)
    ensures NeverOverwrites(s, acts) && AllClear(Exec(s, acts))
  {
    if acts == [] {
    } else {
      NonOverlapMeansNoOverwrite(s, acts[..|acts| - 1]);
      RunKeepsInv(s, acts[..|acts| - 1]);
      StepKeepsClear(Exec(s, acts[..|acts| - 1]), acts[|acts| - 1]);
    }
  }

  /**
   Mbed Crypto and PKCS 11: in every interleaving of creations, destructions and uses, with any call
   failing and any number of crashes and restarts, every mapped id names a live key, provided no two
   creations of one triple overlap.
   */
  lemma MappedIdsAreLive(s: State, acts: seq<Action>)
    requires Initial(s) && s.kind != Ts && Possible(s, acts) && NeverOverlaps(s, acts)
    ensures MappedLive(Exec(s, acts))
  {
    NonOverlapMeansNoOverwrite(s, acts);
    RunKeepsMappedLive(s, acts);
  }

  /** Trusted Service: the same holds between two starts once it holds. */
  lemma TrustedServicePreservesLive(s0: State, before: seq<Action>, acts: seq<Action>)
    requires Initial(s0) && Possible(s0, before) && NeverOverlaps(s0, before) && MappedLive(Exec(s0, before))
    requires Possible(Exec(s0, before), acts) && NeverOverlaps(Exec(s0, before), acts)
    requires forall a | a in acts :: !a.Restart?
    ensures MappedLive(Exec(Exec(s0, before), acts))
  {
    RunKeepsHandles(s0, before);
    NonOverlapMeansNoOverwrite(s0, before);
    NonOverlapMeansNoOverwrite(Exec(s0, before), acts);
    RunKeepsMappedLive(Exec(s0, before), acts);
  }

  /** The start-up of Trusted Service does not ask for the keys: they are all live exactly when those reloaded are. */
  lemma TrustedServiceRestart(s: State, a: Action)
    requires Enabled(s, a) && a.Restart? && s.kind == Ts
    ensures MappedLive(Step(s, a)) <==> forall t | t in s.disk && IsListed(t) :: Live(s, s.disk[t].id)
  {
    var s' := Step(s, a);
    assert s'.objs == s.objs && forall t :: t in s'.mem <==> t in s.disk && IsListed(t);
    assert forall t | t in s.disk && IsListed(t) :: s'.mem[t] == s.disk[t].id;
    assert forall id :: Live(s', id) <==> Live(s, id);
  }
}
