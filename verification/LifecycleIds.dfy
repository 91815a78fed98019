/**
 Key ids in the lifecycle machine: which steps issue them, who holds them, and that no id is shared.
 */
module LifecycleIds {
  import opened Types
  import opened IdAllocator
  import opened Lifecycle

  // ----- What every step keeps -----

  /** The id cannot be issued again. */
  predicate Spent(s: State, id: nat) {
    match s.alloc
    case ByCounter(c) => id <= c.value && id <= PSA_KEY_ID_USER_MAX
    case ByDraw(ids) => id in ids
  }

  predicate OwnId(s: State, pc: Pc) { HasId(pc) ==> pc.id in s.owner && s.owner[pc.id] == pc.t }

  predicate Apart(s: State, i: nat)
    requires i < |s.pcs|
  {
    Fresh(s.pcs[i]) ==> forall j | 0 <= j < |s.pcs| && j != i && HasId(s.pcs[j]) :: s.pcs[j].id != s.pcs[i].id
  }

  /** A thread whose id is not stored yet, or that destroys it, holds an id that is not mapped. */
  predicate Detached(s: State, pc: Pc) {
    Fresh(pc) || (Destroying(pc) && !(pc.Undoing? && pc.overwrote)) ==> !Maps(s, pc.t, pc.id)
  }

  predicate IdsAreOwned(s: State) {
    && (forall t | t in s.mem :: s.mem[t] in s.owner && s.owner[s.mem[t]] == t)
    && (forall t | t in s.disk && IsListed(t) && s.disk[t].Good? ::
          s.disk[t].id in s.owner && s.owner[s.disk[t].id] == t)
    && (forall i | 0 <= i < |s.pcs| :: OwnId(s, s.pcs[i]))
  }

  predicate IdsAreSpent(s: State) {
    if s.up then forall id | id in s.owner :: Spent(s, id)
    else s.kind != P11 ==> forall id | id in s.owner :: id <= PSA_KEY_ID_USER_MAX
  }

  predicate AllocatorOk(s: State) {
    && Fits(|s.pcs|)
    && (s.up ==> (s.kind == P11 <==> s.alloc.ByDraw?))
    && (s.up && s.alloc.ByCounter? ==>
          Bounded(s.alloc.counter, |s.pcs|) && forall i | 0 <= i < |s.pcs| :: s.pcs[i].Refused? <==>
            i in s.alloc.counter.pending)
  }

  predicate ThreadsOk(s: State) {
    && (!s.up ==> s.mem == map[] && forall i | 0 <= i < |s.pcs| :: s.pcs[i].Idle?)
    && (forall i | 0 <= i < |s.pcs| :: Apart(s, i))
    && (forall i | 0 <= i < |s.pcs| :: Detached(s, s.pcs[i]))
  }

  predicate Inv(s: State) { IdsAreOwned(s) && IdsAreSpent(s) && AllocatorOk(s) && ThreadsOk(s) }

  predicate ByThread(a: Action) { !a.Crash? && !a.StartUpFails? && !a.Restart? }

  /** How a thread comes by the id it holds: it had it, it was issued it, or it read it from the map. */
  predicate IdSource(s: State, s': State, pc: Pc, pc': Pc)
    requires HasId(pc')
  {
    || (s'.owner == s.owner && HasId(pc) && pc'.id == pc.id && pc'.t == pc.t && (Fresh(pc') ==> Fresh(pc)))
    || (pc'.Granted? && pc'.id !in s.owner && s'.owner == s.owner[pc'.id := pc'.t] && s'.mem == s.mem)
    || (s'.owner == s.owner && (pc'.Fetched? || pc'.Using?) && Maps(s, pc'.t, pc'.id) && s'.mem == s.mem)
  }

  /** How the map in memory changes. */
  predicate MemSource(s: State, s': State, pc: Pc, pc': Pc) {
    || s'.mem == s.mem
    || (pc.Made? && s'.mem == s.mem[pc.t := pc.id] && (pc'.Idle? || (pc'.Undoing? && pc'.overwrote)))
    || (pc.Fetched? && s'.mem == s.mem - {pc.t} && (pc'.Idle? || pc'.Unmapped?))
  }

  /** How a thread comes to destroy the objects of an id. */
  predicate DestroySource(s: State, s': State, pc: Pc, pc': Pc) {
    && (Destroying(pc') ==>
          || Destroying(pc)
          || (pc.Made? && pc'.Undoing? && (pc'.overwrote || s'.mem == s.mem))
          || (pc.Fetched? && pc'.Unmapped? && s'.mem == s.mem - {pc.t}))
    && (Destroying(pc) ==> s'.mem == s.mem && (pc.Undoing? ==>
        pc'.Idle? || (pc'.Undoing? && pc'.overwrote == pc.overwrote))
                           && (pc'.Undoing? ==> pc.Undoing?))
  }

  /** How the allocator changes: an id is taken or refused, the maximum is stored back, or an id is drawn. */
  predicate AllocSource(s: State, s': State, i: nat, pc: Pc, pc': Pc) {
    || (s'.alloc == s.alloc && !pc.Refused? && !pc'.Refused? && s'.owner == s.owner)
    || (pc.Checked? && s.alloc.ByCounter? && s'.alloc == ByCounter(FetchAdd(s.alloc.counter, i).0)
        && (if pc'.Refused? then FetchAdd(s.alloc.counter, i).1.None? && s'.owner == s.owner
            else pc'.Granted? && FetchAdd(s.alloc.counter, i).1 == Some(pc'.id)
                 && s'.owner == s.owner[pc'.id := pc'.t]))
    || (pc.Refused? && pc'.Idle? && s.alloc.ByCounter? && s'.owner == s.owner
        && s'.alloc == ByCounter(StoreMax(s.alloc.counter, i)))
    || (pc.Checked? && pc'.Granted? && s.alloc.ByDraw? && s'.alloc == ByDraw(s.alloc.localIds + {pc'.id})
        && s'.owner == s.owner[pc'.id := pc'.t])
  }

  /** How a readable mapping file comes about. */
  predicate DiskSource(s: State, s': State, pc: Pc) {
    forall t | t in s'.disk && s'.disk[t].Good? ::
      (t in s.disk && s'.disk[t] == s.disk[t]) || (pc.Made? && t == pc.t && s'.disk[t].id == pc.id)
  }

  /** What the proofs need to know of a step of thread i. */
  predicate Moves(s: State, s': State, i: nat) {
    && s.up && s'.up && s'.kind == s.kind && i < |s.pcs| && |s'.pcs| == |s.pcs| && s'.pcs == s.pcs[i := s'.pcs[i]]
    && (HasId(s'.pcs[i]) ==> IdSource(s, s', s.pcs[i], s'.pcs[i]))
    && (!HasId(s'.pcs[i]) ==> s'.owner == s.owner)
    && MemSource(s, s', s.pcs[i], s'.pcs[i])
    && DestroySource(s, s', s.pcs[i], s'.pcs[i])
    && AllocSource(s, s', i, s.pcs[i], s'.pcs[i])
    && DiskSource(s, s', s.pcs[i])
  }

  /** An id that is taken from the counter or drawn has not been issued before. */
  lemma IssuedIdIsNew(s: State, a: Action)
    requires Inv(s) && Enabled(s, a)
    ensures a.TakeId? && FetchAdd(s.alloc.counter, a.i).1.Some? ==> FetchAdd(s.alloc.counter, a.i).1.value !in s.owner
    ensures a.DrawId? ==> a.id !in s.owner
  {
    if a.TakeId? {
      FetchAddStaysBounded(s.alloc.counter, a.i, |s.pcs|);
    }
  }

  lemma ThreadStepIds(s: State, a: Action, pc: Pc)
    requires ThreadEnabled(s, a, pc)
    requires a.TakeId? && FetchAdd(s.alloc.counter, a.i).1.Some? ==> FetchAdd(s.alloc.counter, a.i).1.value !in s.owner
    requires a.DrawId? ==> a.id !in s.owner
    ensures var (s', pc') := ThreadStep(s, a, pc);
            (HasId(pc') ==> IdSource(s, s', pc, pc')) && (!HasId(pc') ==> s'.owner == s.owner)
  {
  }

  lemma ThreadStepSources(s: State, a: Action, pc: Pc)
    requires ThreadEnabled(s, a, pc)
    ensures var (s', pc') := ThreadStep(s, a, pc);
            && s'.up == s.up && s'.kind == s.kind && s'.pcs == s.pcs
            && MemSource(s, s', pc, pc') && DestroySource(s, s', pc, pc')
  {
  }

  lemma ThreadStepAllocates(s: State, a: Action, pc: Pc)
    requires ThreadEnabled(s, a, pc)
    ensures var (s', pc') := ThreadStep(s, a, pc); AllocSource(s, s', a.i, pc, pc')
  {
  }

  lemma ThreadStepDisk(s: State, a: Action, pc: Pc)
    requires ThreadEnabled(s, a, pc)
    ensures DiskSource(s, ThreadStep(s, a, pc).0, pc)
  {
  }

  lemma Assemble(s: State, s1: State, i: nat, pc': Pc)
    requires s.up && s1.up && s1.kind == s.kind && s1.pcs == s.pcs && i < |s.pcs|
    requires HasId(pc') ==> IdSource(s, s1, s.pcs[i], pc')
    requires !HasId(pc') ==> s1.owner == s.owner
    requires MemSource(s, s1, s.pcs[i], pc') && DestroySource(s, s1, s.pcs[i], pc')
    requires AllocSource(s, s1, i, s.pcs[i], pc') && DiskSource(s, s1, s.pcs[i])
    ensures Moves(s, s1.(pcs := s.pcs[i := pc']), i)
  {
  }

  lemma StepMoves(s: State, a: Action)
    requires Inv(s) && Enabled(s, a) && ByThread(a)
    ensures Moves(s, Step(s, a), a.i)
  {
    IssuedIdIsNew(s, a);
    var pc := s.pcs[a.i];
    ThreadStepIds(s, a, pc);
    ThreadStepSources(s, a, pc);
    ThreadStepAllocates(s, a, pc);
    ThreadStepDisk(s, a, pc);
    Assemble(s, ThreadStep(s, a, pc).0, a.i, ThreadStep(s, a, pc).1);
  }

  lemma MoveKeepsOwned(s: State, s': State, i: nat)
    requires Inv(s) && Moves(s, s', i)
    ensures IdsAreOwned(s')
  {
  }

  lemma MoveKeepsApart(s: State, s': State, i: nat)
    requires Inv(s) && Moves(s, s', i)
    ensures forall j | 0 <= j < |s'.pcs| :: Apart(s', j)
  {
    forall j, k | 0 <= j < |s'.pcs| && 0 <= k < |s'.pcs| && j != k && Fresh(s'.pcs[j]) && HasId(s'.pcs[k])
      ensures s'.pcs[k].id != s'.pcs[j].id
    {
      assert OwnId(s, s.pcs[j]) && OwnId(s, s.pcs[k]) && Apart(s, j) && Detached(s, s.pcs[j]);
    }
  }

  lemma MoveKeepsDetached(s: State, s': State, i: nat)
    requires Inv(s) && Moves(s, s', i)
    ensures forall j | 0 <= j < |s'.pcs| :: Detached(s', s'.pcs[j])
  {
    forall j | 0 <= j < |s'.pcs| ensures Detached(s', s'.pcs[j]) {
      if j == i {
        assert Detached(s, s.pcs[i]) && OwnId(s, s.pcs[i]);
      } else {
        assert Detached(s, s.pcs[j]) && OwnId(s, s.pcs[j]) && Apart(s, i);
      }
    }
  }

  lemma MoveKeepsAllocator(s: State, s': State, i: nat)
    requires Inv(s) && Moves(s, s', i)
    ensures AllocatorOk(s')
    ensures IdsAreSpent(s')
  {
    if s.alloc.ByCounter? && s.pcs[i].Checked? {
      FetchAddStaysBounded(s.alloc.counter, i, |s.pcs|);
    } else if s.alloc.ByCounter? && s.pcs[i].Refused? {
      StoreMaxStaysBounded(s.alloc.counter, i, |s.pcs|);
    }
  }

  lemma CrashKeepsInv(s: State, a: Action)
    requires Inv(s) && Enabled(s, a) && (a.Crash? || a.StartUpFails?)
    ensures Inv(Step(s, a))
  {
  }

  lemma RestartKeepsInv(s: State, a: Action)
    requires Inv(s) && Enabled(s, a) && a.Restart?
    ensures Inv(Step(s, a))
  {
    RestartKeepsOwned(s, a);
    RestartKeepsSpent(s, a);
  }

  lemma RestartKeepsSpent(s: State, a: Action)
    requires IdsAreOwned(s) && IdsAreSpent(s) && AllocatorOk(s) && Enabled(s, a) && a.Restart?
    ensures IdsAreSpent(Step(s, a))
  {
    var s', kept := Step(s, a), Kept(s);
    forall id | id in s'.owner ensures Spent(s', id) {
      var t := s.owner[id];
      assert t in kept && kept[t] == id && id in kept.Values;
    }
  }

  lemma RestartKeepsOwned(s: State, a: Action)
    requires IdsAreOwned(s) && ThreadsOk(s) && Enabled(s, a) && a.Restart?
    ensures IdsAreOwned(Step(s, a))
  {
    var s', kept := Step(s, a), Kept(s);
    assert s'.mem == kept;
    forall t | t in s'.disk && IsListed(t) && s'.disk[t].Good?
      ensures s'.disk[t].id in s'.owner && s'.owner[s'.disk[t].id] == t
    {
      assert t in kept && kept[t] == s.disk[t].id;
    }
  }

  /** Every step of every thread, a crash, a failed start-up and a restart keep the invariant. */
  lemma StepKeepsInv(s: State, a: Action)
    requires Inv(s) && Enabled(s, a)
    ensures Inv(Step(s, a))
  {
    if ByThread(a) {
      StepMoves(s, a);
      MoveKeepsOwned(s, Step(s, a), a.i);
      MoveKeepsApart(s, Step(s, a), a.i);
      MoveKeepsDetached(s, Step(s, a), a.i);
      MoveKeepsAllocator(s, Step(s, a), a.i);
    } else if a.Restart? {
      RestartKeepsInv(s, a);
    } else {
      CrashKeepsInv(s, a);
    }
  }

  lemma {:induction false} RunKeepsInv(s: State, acts: seq<Action>)
    requires Inv(s) && Possible(s, acts)
    ensures Inv(Exec(s, acts))
  {
    if acts == [] {
    } else {
      RunKeepsInv(s, acts[..|acts| - 1]);
      StepKeepsInv(Exec(s, acts[..|acts| - 1]), acts[|acts| - 1]);
    }
  }

  lemma StepKeepsKind(s: State, a: Action)
    requires Enabled(s, a)
    ensures Step(s, a).kind == s.kind
  {
  }

  lemma {:induction false} RunKeepsKind(s: State, acts: seq<Action>)
    requires Possible(s, acts)
    ensures Exec(s, acts).kind == s.kind
  {
    if acts == [] {
      assert Exec(s, acts) == s;
    } else {
      RunKeepsKind(s, acts[..|acts| - 1]);
      StepKeepsKind(Exec(s, acts[..|acts| - 1]), acts[|acts| - 1]);
    }
  }

  /** The states of the runs of a service that starts with nothing on disk. */
  ghost predicate Reachable(s: State) {
    exists s0, acts :: Initial(s0) && Possible(s0, acts) && s == Exec(s0, acts)
  }

  lemma ReachableIsInv(s: State)
    requires Reachable(s)
    ensures Inv(s)
  {
    var s0, acts :| Initial(s0) && Possible(s0, acts) && s == Exec(s0, acts);
    RunKeepsInv(s0, acts);
  }

  lemma ReachableExtends(s: State, a: Action)
    requires Reachable(s) && Enabled(s, a)
    ensures Reachable(Step(s, a))
  {
    var s0, acts :| Initial(s0) && Possible(s0, acts) && s == Exec(s0, acts);
    RunExtends(s0, acts, a);
  }

  lemma {:induction false} ReachableRuns(s: State, acts: seq<Action>)
    requires Reachable(s) && Possible(s, acts)
    ensures Reachable(Exec(s, acts))
  {
    if acts == [] {
      assert Exec(s, acts) == s;
    } else {
      ReachableRuns(s, acts[..|acts| - 1]);
      ReachableExtends(Exec(s, acts[..|acts| - 1]), acts[|acts| - 1]);
    }
  }

  lemma RunExtends(s: State, acts: seq<Action>, a: Action)
    requires Possible(s, acts) && Enabled(Exec(s, acts), a)
    ensures Possible(s, acts + [a]) && Exec(s, acts + [a]) == Step(Exec(s, acts), a)
  {
    assert (acts + [a])[..|acts|] == acts;
  }

  /** A run leads from one state to another. */
  predicate Runs(s: State, acts: seq<Action>, r: State) { Possible(s, acts) && r == Exec(s, acts) }

  lemma RunsOne(s: State, a: Action)
    requires Enabled(s, a)
    ensures Runs(s, [a], Step(s, a))
  {
    assert [a][..0] == [];
  }

  lemma {:induction false} RunsThen(s: State, acts: seq<Action>, r: State, more: seq<Action>, q: State)
    requires Runs(s, acts, r) && Runs(r, more, q)
    ensures Runs(s, acts + more, q)
    decreases |more|
  {
    if more == [] {
      assert acts + more == acts;
    } else {
      RunsThen(s, acts, r, more[..|more| - 1], Exec(r, more[..|more| - 1]));
      assert (acts + more)[..|acts + more| - 1] == acts + more[..|more| - 1];
    }
  }

  /** In every run, restarts included, no two triples share a key id, in memory or in a file that is reloaded. */
  lemma MapIsInjective(s: State, t: KeyTriple, u: KeyTriple)
    requires Reachable(s)
    ensures t in s.mem && u in s.mem && s.mem[t] == s.mem[u] ==> t == u
    ensures t in s.disk && u in s.disk && IsListed(t) && IsListed(u) && s.disk[t].Good? && s.disk[t] == s.disk[u] ==>
            t == u
  {
    ReachableIsInv(s);
  }

  /** The id that an action issues. */
  function Issued(s: State, a: Action): (r: Option<nat>)
    requires Enabled(s, a)
  {
    match a
    case TakeId(i) => FetchAdd(s.alloc.counter, i).1
    case DrawId(_, id) => Some(id)
    case _ => None
  }

  lemma StepKeepsOwners(s: State, a: Action)
    requires Inv(s) && Enabled(s, a) && ByThread(a)
    ensures forall id | id in s.owner :: id in Step(s, a).owner && Step(s, a).owner[id] == s.owner[id]
    ensures var id := Issued(s, a);
            id.Some? ==> id.value !in s.owner && id.value in Step(s, a).owner
                         && Step(s, a).owner[id.value] == s.pcs[a.i].t == Step(s, a).pcs[a.i].t
  {
    IssuedIdIsNew(s, a);
  }

  lemma {:induction false} RunKeepsOwners(s: State, acts: seq<Action>)
    requires Inv(s) && Possible(s, acts) && forall a | a in acts :: ByThread(a)
    ensures forall id | id in s.owner :: id in Exec(s, acts).owner && Exec(s, acts).owner[id] == s.owner[id]
  {
    if acts == [] {
    } else {
      var before, a := acts[..|acts| - 1], acts[|acts| - 1];
      assert forall b | b in before :: b in acts;
      RunKeepsOwners(s, before);
      RunKeepsInv(s, before);
      StepKeepsOwners(Exec(s, before), a);
    }
  }

  /** Whatever thread or mapping has the id has it for the triple. */
  predicate BelongsTo(s: State, id: nat, t: KeyTriple) {
    && (forall i | 0 <= i < |s.pcs| && HasId(s.pcs[i]) && s.pcs[i].id == id :: s.pcs[i].t == t)
    && (forall u | u in s.mem && s.mem[u] == id :: u == t)
  }

  lemma OwnerBelongs(s: State, id: nat)
    requires IdsAreOwned(s) && id in s.owner
    ensures BelongsTo(s, id, s.owner[id])
  {
    forall i | 0 <= i < |s.pcs| && HasId(s.pcs[i]) && s.pcs[i].id == id ensures s.pcs[i].t == s.owner[id] {
      assert OwnId(s, s.pcs[i]);
    }
  }

  /**
   Between two starts, in every interleaving: once an action has issued an id for a triple, no later
   action issues it again, and whatever thread holds that id holds it for that triple. So a thread that
   read an id earlier never reaches a key created for another triple.
   */
  lemma IssuedIdsAreNeverReissued(s: State, a: Action, acts: seq<Action>, r: State, b: Action)
    requires Reachable(s) && Enabled(s, a) && ByThread(a) && Issued(s, a).Some?
    requires Runs(Step(s, a), acts, r) && Enabled(r, b) && forall c | c in acts :: ByThread(c)
    ensures Issued(r, b) != Issued(s, a) && BelongsTo(r, Issued(s, a).value, s.pcs[a.i].t)
  {
    ReachableIsInv(s);
    StepKeepsInv(s, a);
    StepKeepsOwners(s, a);
    RunKeepsOwners(Step(s, a), acts);
    RunKeepsInv(Step(s, a), acts);
    IssuedIdIsNew(r, b);
    OwnerBelongs(r, Issued(s, a).value);
  }
}
