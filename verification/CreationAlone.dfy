/** A creation that runs alone is all-or-nothing, whichever of its calls fail. */
module CreationAlone {
  import opened Types
  import opened Lifecycle
  import opened LifecycleIds
  import opened LifecycleKeys

  /** The actions are those of one thread. */
  predicate By(acts: seq<Action>, i: nat) { forall a | a in acts :: ByThread(a) && a.i == i }

  /** No rollback call has failed. */
  predicate UndoWorks(acts: seq<Action>) { forall a | a in acts && a.Undo? :: a.gone }

  /** The backend holds what it held before, and besides at most objects from a list of new handles. */
  predicate Extra(objs: map<nat, Object>, before: State, handles: seq<nat>) {
    && (forall h | h in before.objs :: h in objs && objs[h] == before.objs[h])
    && (forall h | h in objs && h !in before.objs :: h in handles)
    && (forall h | h in handles :: h >= before.next)
  }

  /** Where a creation of a triple stands that thread i started in a state. */
  predicate Stage(before: State, s: State, i: nat, t: KeyTriple, undoWorks: bool) {
    && |s.pcs| == |before.pcs| && i < |s.pcs| && s.up
    && (forall j | 0 <= j < |s.pcs| && j != i :: s.pcs[j] == before.pcs[j])
    && var pc := s.pcs[i];
       match pc
       case Idle =>
         || (s.mem == before.mem && (undoWorks ==> s.objs == before.objs))
         || (t !in before.mem && t in s.mem && s.mem == before.mem[t := s.mem[t]] && Live(s, s.mem[t]))
       case Checked(u) => u == t && t !in before.mem && s.mem == before.mem && s.objs == before.objs
         && s.next == before.next
       case Refused(u) => u == t && s.mem == before.mem && s.objs == before.objs
       case Granted(u, _) => u == t && t !in before.mem && s.mem == before.mem && s.objs == before.objs
         && s.next == before.next
       case Made(u, _, handles) => u == t && t !in before.mem && s.mem == before.mem && Extra(s.objs, before, handles)
       case Undoing(u, _, handles, overwrote) =>
         u == t && s.mem == before.mem && (undoWorks ==> Extra(s.objs, before, handles))
       case _ => false
  }

  lemma UndoStage(before: State, objs: map<nat, Object>, handles: seq<nat>)
    requires Extra(objs, before, handles) && forall h | h in before.objs :: h < before.next
    ensures if handles == [] then objs == before.objs else Extra(objs - {handles[0]}, before, handles[1..])
  {
    if handles != [] {
      assert handles == [handles[0]] + handles[1..];
      assert forall h :: h in handles <==> h == handles[0] || h in handles[1..];
      assert handles[0] in handles;
    }
  }

  lemma StoreStage(before: State, s: State, a: Action, t: KeyTriple, undoWorks: bool)
    requires (a.StoreMapping? || a.StoreMappingFails?) && Enabled(s, a) && Stage(before, s, a.i, t, undoWorks)
    requires HandlesFit(s, s.pcs[a.i])
    ensures Stage(before, Step(s, a), a.i, t, undoWorks)
  {
    var pc, s' := s.pcs[a.i], Step(s, a);
    assert s'.objs == s.objs;
    if a.StoreMapping? {
      assert pc.handles[0] in pc.handles;
      assert Live(s', pc.id);
    }
  }

  lemma RollbackStage(before: State, s: State, a: Action, t: KeyTriple, undoWorks: bool)
    requires a.Undo? && Enabled(s, a) && Stage(before, s, a.i, t, undoWorks) && HandlesOk(before)
        && (undoWorks ==> a.gone)
    ensures Stage(before, Step(s, a), a.i, t, undoWorks)
  {
    if undoWorks {
      UndoStage(before, s.objs, s.pcs[a.i].handles);
    }
  }

  lemma EarlyStage(before: State, s: State, a: Action, t: KeyTriple, undoWorks: bool)
    requires ByThread(a) && Enabled(s, a) && !s.pcs[a.i].Idle? && Stage(before, s, a.i, t, undoWorks) && HandlesOk(before)
    requires a.TakeId? || a.StoreMaximum? || a.DrawId? || a.Abandon?
    ensures Stage(before, Step(s, a), a.i, t, undoWorks)
  {
  }

  lemma MakeStage(before: State, s: State, a: Action, t: KeyTriple, undoWorks: bool)
    requires a.Make? && Enabled(s, a) && Stage(before, s, a.i, t, undoWorks) && HandlesOk(before)
    ensures Stage(before, Step(s, a), a.i, t, undoWorks)
  {
  }

  lemma StepStage(before: State, s: State, a: Action, t: KeyTriple, undoWorks: bool)
    requires ByThread(a) && Enabled(s, a) && !s.pcs[a.i].Idle? && Stage(before, s, a.i, t, undoWorks)
    requires HandlesOk(before) && HandlesFit(s, s.pcs[a.i])
    requires a.Undo? && undoWorks ==> a.gone
    ensures Stage(before, Step(s, a), a.i, t, undoWorks)
  {
    if a.StoreMapping? || a.StoreMappingFails? {
      StoreStage(before, s, a, t, undoWorks);
    } else if a.Undo? {
      RollbackStage(before, s, a, t, undoWorks);
    } else if a.Make? {
      MakeStage(before, s, a, t, undoWorks);
    } else {
      EarlyStage(before, s, a, t, undoWorks);
    }
  }

  /** The actions after the first are those of a creation that has not returned before the last of them. */
  predicate Busy(s: State, acts: seq<Action>, i: nat)
    requires Possible(s, acts)
    decreases |acts|
  {
    acts != [] ==>
      Busy(s, acts[..|acts| - 1], i) && i < |Exec(s, acts[..|acts| - 1]).pcs|
        && !Exec(s, acts[..|acts| - 1]).pcs[i].Idle?
  }

  lemma StartStage(before: State, t: KeyTriple, i: nat)
    requires Enabled(before, StartCreate(i, t)) && forall h | h in before.objs :: h < before.next
    ensures Stage(before, Step(before, StartCreate(i, t)), i, t, true)
  {
  }

  lemma {:induction false} CreationStages(before: State, first: State, t: KeyTriple, i: nat, acts: seq<Action>)
    requires HandlesOk(before) && Inv(first) && HandlesOk(first) && Stage(before, first, i, t, true)
    requires Possible(first, acts) && By(acts, i) && Busy(first, acts, i)
    ensures Stage(before, Exec(first, acts), i, t, UndoWorks(acts))
  {
    if acts == [] {
    } else {
      var rest, a := acts[..|acts| - 1], acts[|acts| - 1];
      assert a in acts && forall b | b in rest :: b in acts;
      CreationStages(before, first, t, i, rest);
      RunKeepsHandles(first, rest);
      Weaken(before, Exec(first, rest), i, t, UndoWorks(rest), UndoWorks(acts));
      StepStage(before, Exec(first, rest), a, t, UndoWorks(acts));
    }
  }

  lemma Weaken(before: State, s: State, i: nat, t: KeyTriple, works: bool, works': bool)
    requires Stage(before, s, i, t, works) && (works' ==> works)
    ensures Stage(before, s, i, t, works')
  {
  }

  /**
   A creation that runs alone, from its existence check until it returns, whichever calls fail: either the
   triple gets a mapping to a live key and nothing else changes in the map, or the map is as before, so a
   retry passes the existence check, and if no rollback call failed the backend is as before too.
   */
  lemma CreationIsAllOrNothing(before: State, t: KeyTriple, i: nat, acts: seq<Action>)
    requires Reachable(before) && Enabled(before, StartCreate(i, t))
    requires Possible(Step(before, StartCreate(i, t)), acts) && By(acts, i)
        && Busy(Step(before, StartCreate(i, t)), acts, i)
    requires Exec(Step(before, StartCreate(i, t)), acts).pcs[i].Idle?
    ensures var s := Exec(Step(before, StartCreate(i, t)), acts);
            || (t !in before.mem && t in s.mem && s.mem == before.mem[t := s.mem[t]] && Live(s, s.mem[t]))
            || (s.mem == before.mem && (UndoWorks(acts) ==> s.objs == before.objs))
  {
    ReachableHandles(before);
    StepKeepsInv(before, StartCreate(i, t));
    StepKeepsHandlesOk(before, StartCreate(i, t));
    StartStage(before, t, i);
    CreationStages(before, Step(before, StartCreate(i, t)), t, i, acts);
  }
}
