/**
 The account of the backend: every live object belongs to a mapping or to an operation under way. Exactly
 which steps lose one, and that without failing calls and without overlap none is lost.
 */
module LifecycleAccount {
  import opened Types
  import opened IdAllocator
  import opened Lifecycle
  import opened LifecycleIds
  import opened LifecycleKeys
  import opened Pkcs11Token

  predicate Mapped(s: State, id: nat) { exists t | t in s.mem :: s.mem[t] == id }

  /** The thread still has to store or to destroy the object. */
  predicate Claims(pc: Pc, h: nat, id: nat) {
    || ((pc.Made? || pc.Undoing?) && h in pc.handles)
    || ((pc.Unmapped? || pc.Found? || pc.FirstGone?) && pc.id == id)
  }

  predicate ClaimedBy(s: State, i: nat, h: nat)
    requires i < |s.pcs| && h in s.objs
  {
    Claims(s.pcs[i], h, s.objs[h].id)
  }

  predicate Accounted(s: State, h: nat)
    requires h in s.objs
  {
    Mapped(s, s.objs[h].id) || exists i | 0 <= i < |s.pcs| :: ClaimedBy(s, i, h)
  }

  predicate NoOrphans(s: State) { forall h | h in s.objs :: Accounted(s, h) }

  // ----- Which steps lose an object -----

  /** Nothing but thread i claims the object. */
  predicate OnlyClaimedBy(s: State, i: nat, h: nat)
    requires h in s.objs
  {
    !Mapped(s, s.objs[h].id) && forall j | 0 <= j < |s.pcs| && j != i :: !ClaimedBy(s, j, h)
  }

  /** The mapping of a triple is all that claims some object. */
  predicate OnlyMapped(s: State, t: KeyTriple) {
    t in s.mem && exists h | h in s.objs && s.objs[h].id == s.mem[t] ::
      forall j | 0 <= j < |s.pcs| :: !ClaimedBy(s, j, h)
  }

  /** The thread stops claiming the object, which stays. */
  predicate LetsGo(s: State, a: Action, pc: Pc, h: nat)
    requires h in s.objs
  {
    match a
    case Undo(_, gone) => pc.Undoing? && pc.handles != [] && !gone && h == pc.handles[0] && h !in pc.handles[1..]
    case DestroyKey(_, gone) => pc.Unmapped? && !gone && s.objs[h].id == pc.id
    case GiveUp(_) => (pc.Unmapped? || pc.Found? || pc.FirstGone?) && s.objs[h].id == pc.id
    case DestroyObject(_) => pc.Found? && !pc.first && h != pc.h && s.objs[h].id == pc.id
    case _ => false
  }

  /**
   The steps that orphan an object: storing over a mapping, removing a mapping that was made anew, a rollback
   or destroy call that fails, and a PKCS 11 destroy that finds more than two objects.
   */
  predicate Orphans(s: State, a: Action)
    requires Enabled(s, a) && ByThread(a)
  {
    var pc := s.pcs[a.i];
    match a
    case StoreMapping(_) => OnlyMapped(s, pc.t)
    case RemoveMapping(_) => pc.t in s.mem && s.mem[pc.t] != pc.id && OnlyMapped(s, pc.t)
    case _ => exists h | h in s.objs :: LetsGo(s, a, pc, h) && OnlyClaimedBy(s, a.i, h)
  }

  lemma ElsewhereClaimed(s: State, s1: State, i: nat, pc': Pc, j: nat, h: nat)
    requires i < |s.pcs| && j < |s.pcs| && j != i && h in s.objs && h in s1.objs && s1.objs[h] == s.objs[h]
    ensures ClaimedBy(s1.(pcs := s.pcs[i := pc']), j, h) <==> ClaimedBy(s, j, h)
  {
  }

  /** Memory is as before and every object that stays is claimed as before by the thread, except those let go. */
  lemma AccountOfThread(s: State, s1: State, i: nat, pc': Pc, gone: iset<nat>)
    requires NoOrphans(s) && i < |s.pcs| && s1.mem == s.mem
    requires forall h | h in s1.objs && h !in s.objs :: Claims(pc', h, s1.objs[h].id)
    requires forall h | h in s1.objs && h in s.objs :: s1.objs[h] == s.objs[h]
    requires forall h | h in s1.objs && h in s.objs ::
               Claims(pc', h, s.objs[h].id) <==> Claims(s.pcs[i], h, s.objs[h].id) && h !in gone
    requires forall h | h in gone && h in s.objs :: Claims(s.pcs[i], h, s.objs[h].id)
    ensures NoOrphans(s1.(pcs := s.pcs[i := pc'])) <==>
            !(exists h | h in s.objs && h in s1.objs && h in gone :: OnlyClaimedBy(s, i, h))
  {
    var s' := s1.(pcs := s.pcs[i := pc']);
    forall h | h in s'.objs ensures Accounted(s', h) <==> !(h in s.objs && h in gone && OnlyClaimedBy(s, i, h)) {
      if h !in s.objs {
        assert ClaimedBy(s', i, h);
      } else {
        assert Mapped(s', s'.objs[h].id) <==> Mapped(s, s.objs[h].id);
        forall j | 0 <= j < |s.pcs| && j != i ensures ClaimedBy(s', j, h) <==> ClaimedBy(s, j, h) {
          ElsewhereClaimed(s, s1, i, pc', j, h);
        }
        assert Accounted(s, h);
        if Claims(s.pcs[i], h, s.objs[h].id) && h !in gone {
          assert ClaimedBy(s', i, h);
        } else {
          AccountWithout(s, s', i, h);
        }
      }
    }
  }

  lemma AccountWithout(s: State, s': State, i: nat, h: nat)
    requires h in s.objs && h in s'.objs && s'.objs[h] == s.objs[h] && i < |s.pcs| == |s'.pcs|
    requires (Mapped(s', s'.objs[h].id) <==> Mapped(s, s.objs[h].id)) && !ClaimedBy(s', i, h)
    requires forall j | 0 <= j < |s.pcs| && j != i :: ClaimedBy(s', j, h) <==> ClaimedBy(s, j, h)
    ensures Accounted(s', h) <==> !OnlyClaimedBy(s, i, h)
  {
    if j :| 0 <= j < |s.pcs| && j != i && ClaimedBy(s, j, h) {
      assert ClaimedBy(s', j, h);
    }
  }

  /** What a step of a thread does to its own claims, other than storing or removing a mapping. */
  predicate ClaimSource(s: State, s': State, a: Action, pc: Pc, pc': Pc) {
    && s'.mem == s.mem
    && (forall h | h in s'.objs && h !in s.objs :: Claims(pc', h, s'.objs[h].id))
    && (forall h | h in s'.objs && h in s.objs :: s'.objs[h] == s.objs[h])
    && (forall h | h in s'.objs && h in s.objs ::
          Claims(pc', h, s.objs[h].id) <==> Claims(pc, h, s.objs[h].id) && !LetsGo(s, a, pc, h))
    && (forall h | h in s.objs && LetsGo(s, a, pc, h) :: h in s'.objs && Claims(pc, h, s.objs[h].id))
  }

  lemma MakePairClaims(s: State, a: Action, pc: Pc)
    requires ThreadEnabled(s, a, pc) && a.Make? && a.pair && forall h | h in s.objs :: h < s.next
    ensures ClaimSource(s, ThreadStep(s, a, pc).0, a, pc, ThreadStep(s, a, pc).1)
  {
    assert ThreadStep(s, a, pc).1.handles == [s.next, s.next + 1];
  }

  lemma MakeOneClaims(s: State, a: Action, pc: Pc)
    requires ThreadEnabled(s, a, pc) && a.Make? && !a.pair && forall h | h in s.objs :: h < s.next
    ensures ClaimSource(s, ThreadStep(s, a, pc).0, a, pc, ThreadStep(s, a, pc).1)
  {
    assert ThreadStep(s, a, pc).1.handles == [s.next];
  }

  lemma UndoClaims(s: State, a: Action, pc: Pc)
    requires ThreadEnabled(s, a, pc) && a.Undo?
    ensures ClaimSource(s, ThreadStep(s, a, pc).0, a, pc, ThreadStep(s, a, pc).1)
  {
    if pc.handles != [] {
      assert forall h :: h in pc.handles <==> h == pc.handles[0] || h in pc.handles[1..];
    }
  }

  lemma DestroyClaims(s: State, a: Action, pc: Pc)
    requires ThreadEnabled(s, a, pc) && (a.DestroyKey? || a.GiveUp?)
    ensures ClaimSource(s, ThreadStep(s, a, pc).0, a, pc, ThreadStep(s, a, pc).1)
  {
  }

  lemma FindClaims(s: State, a: Action, pc: Pc)
    requires ThreadEnabled(s, a, pc) && (a.DestroyObject? || a.Find? || a.FindNone?) && HandlesFit(s, pc)
    ensures ClaimSource(s, ThreadStep(s, a, pc).0, a, pc, ThreadStep(s, a, pc).1)
  {
  }

  /** The other steps touch neither map nor backend, and a creation whose insert failed keeps its claims. */
  lemma QuietClaims(s: State, a: Action, pc: Pc)
    requires ThreadEnabled(s, a, pc) && (a.StartCreate? || a.TakeId? || a.StoreMaximum? || a.DrawId? || a.Abandon?)
    ensures ClaimSource(s, ThreadStep(s, a, pc).0, a, pc, ThreadStep(s, a, pc).1)
  {
    assert ThreadStep(s, a, pc).0.objs == s.objs;
  }

  lemma QuietClaimsToo(s: State, a: Action, pc: Pc)
    requires ThreadEnabled(s, a, pc) && (a.StoreMappingFails? || a.StartDestroy? || a.StartUse? || a.Use?)
    ensures ClaimSource(s, ThreadStep(s, a, pc).0, a, pc, ThreadStep(s, a, pc).1)
  {
    assert ThreadStep(s, a, pc).0.objs == s.objs;
  }

  lemma ThreadStepClaims(s: State, a: Action, pc: Pc)
    requires ThreadEnabled(s, a, pc) && !a.StoreMapping? && !a.RemoveMapping? && HandlesFit(s, pc)
    requires forall h | h in s.objs :: h < s.next
    ensures ClaimSource(s, ThreadStep(s, a, pc).0, a, pc, ThreadStep(s, a, pc).1)
  {
    match a {
      case Make(_, pair) => if pair { MakePairClaims(s, a, pc); } else { MakeOneClaims(s, a, pc); }
      case Undo(_, _) => UndoClaims(s, a, pc);
      case DestroyKey(_, _) | GiveUp(_) => DestroyClaims(s, a, pc);
      case DestroyObject(_) | Find(_, _) | FindNone(_) => FindClaims(s, a, pc);
      case StartCreate(_, _) | TakeId(_) | StoreMaximum(_) | DrawId(_, _) | Abandon(_) => QuietClaims(s, a, pc);
      case _ => QuietClaimsToo(s, a, pc);
    }
  }

  /** Storing a mapping: the objects of the old id lose the mapping as their claim. */
  lemma AccountOfStore(s: State, s': State, i: nat)
    requires Inv(s) && HandlesOk(s) && NoOrphans(s) && i < |s.pcs| && s.pcs[i].Made?
    requires var pc := s.pcs[i];
             && s'.mem == s.mem[pc.t := pc.id] && s'.objs == s.objs && |s'.pcs| == |s.pcs|
             && s'.pcs == s.pcs[i := s'.pcs[i]]
             && s'.pcs[i] == if pc.t in s.mem then Undoing(pc.t, pc.id, pc.handles, true) else Idle
    ensures NoOrphans(s') <==> !OnlyMapped(s, s.pcs[i].t)
  {
    var pc := s.pcs[i];
    assert HandlesFit(s, pc) && OwnId(s, pc) && Detached(s, pc);
    assert Maps(s', pc.t, pc.id);
    forall h | h in s.objs
      ensures Accounted(s', h) <==>
              !(pc.t in s.mem && s.objs[h].id == s.mem[pc.t] && forall j | 0 <= j < |s.pcs| :: !ClaimedBy(s, j, h))
    {
      assert Accounted(s, h);
      assert forall j | 0 <= j < |s.pcs| && j != i :: ClaimedBy(s', j, h) <==> ClaimedBy(s, j, h);
      assert ClaimedBy(s, i, h) ==> s.objs[h].id == pc.id;
      if pc.t in s.mem && s.objs[h].id == s.mem[pc.t] {
        assert !Mapped(s', s.objs[h].id);
        if j :| 0 <= j < |s.pcs| && ClaimedBy(s, j, h) {
          assert ClaimedBy(s', j, h);
        }
      } else if t :| t in s.mem && s.mem[t] == s.objs[h].id {
        assert s'.mem[t] == s.objs[h].id;
      } else if s.objs[h].id != pc.id {
        var j :| 0 <= j < |s.pcs| && ClaimedBy(s, j, h);
        assert ClaimedBy(s', j, h);
      }
    }
  }

  /** Removing a mapping: its objects pass to the thread, if the thread knows their id. */
  lemma AccountOfRemove(s: State, s': State, i: nat)
    requires Inv(s) && NoOrphans(s) && i < |s.pcs| && s.pcs[i].Fetched?
    requires var pc := s.pcs[i];
             && s'.mem == s.mem - {pc.t} && s'.objs == s.objs && |s'.pcs| == |s.pcs|
             && s'.pcs == s.pcs[i := s'.pcs[i]] && s'.pcs[i] == if pc.t in s.mem then Unmapped(pc.t, pc.id) else Idle
    ensures var pc := s.pcs[i]; NoOrphans(s') <==> !(pc.t in s.mem && s.mem[pc.t] != pc.id && OnlyMapped(s, pc.t))
  {
    var pc := s.pcs[i];
    forall h | h in s.objs
      ensures Accounted(s', h) <==>
              !(pc.t in s.mem && s.mem[pc.t] != pc.id && s.objs[h].id == s.mem[pc.t]
                && forall j | 0 <= j < |s.pcs| :: !ClaimedBy(s, j, h))
    {
      assert Accounted(s, h);
      assert !ClaimedBy(s, i, h);
      assert forall j | 0 <= j < |s.pcs| && j != i :: ClaimedBy(s', j, h) <==> ClaimedBy(s, j, h);
      if pc.t in s.mem && s.objs[h].id == pc.id {
        assert ClaimedBy(s', i, h);
      } else if pc.t in s.mem && s.objs[h].id == s.mem[pc.t] {
        assert !Mapped(s', s.objs[h].id);
        if j :| 0 <= j < |s.pcs| && ClaimedBy(s, j, h) {
          assert ClaimedBy(s', j, h);
        }
      } else if t :| t in s.mem && s.mem[t] == s.objs[h].id {
        assert s'.mem[t] == s.objs[h].id;
      } else {
        var j :| 0 <= j < |s.pcs| && ClaimedBy(s, j, h);
        assert ClaimedBy(s', j, h);
      }
    }
  }

  lemma StoreStep(s: State, a: Action)
    requires Enabled(s, a) && a.StoreMapping?
    ensures var pc, s' := s.pcs[a.i], Step(s, a);
            && s'.mem == s.mem[pc.t := pc.id] && s'.objs == s.objs && |s'.pcs| == |s.pcs|
            && s'.pcs == s.pcs[a.i := s'.pcs[a.i]]
            && s'.pcs[a.i] == if pc.t in s.mem then Undoing(pc.t, pc.id, pc.handles, true) else Idle
  {
  }

  lemma RemoveStep(s: State, a: Action)
    requires Enabled(s, a) && a.RemoveMapping?
    ensures var pc, s' := s.pcs[a.i], Step(s, a);
            && s'.mem == s.mem - {pc.t} && s'.objs == s.objs && |s'.pcs| == |s.pcs|
            && s'.pcs == s.pcs[a.i := s'.pcs[a.i]] && s'.pcs[a.i] == if pc.t in s.mem then Unmapped(pc.t, pc.id) else Idle
  {
  }

  lemma AccountOfMove(s: State, s1: State, a: Action, i: nat, pc': Pc)
    requires NoOrphans(s) && i < |s.pcs| && ClaimSource(s, s1, a, s.pcs[i], pc')
    ensures NoOrphans(s1.(pcs := s.pcs[i := pc'])) <==>
            !(exists h | h in s.objs :: LetsGo(s, a, s.pcs[i], h) && OnlyClaimedBy(s, i, h))
  {
    AccountOfThread(s, s1, i, pc', iset h | h in s.objs && LetsGo(s, a, s.pcs[i], h));
  }

  lemma OtherStep(s: State, a: Action)
    requires HandlesOk(s) && NoOrphans(s) && Enabled(s, a) && ByThread(a) && !a.StoreMapping? && !a.RemoveMapping?
    ensures NoOrphans(Step(s, a)) <==>
            !(exists h | h in s.objs :: LetsGo(s, a, s.pcs[a.i], h) && OnlyClaimedBy(s, a.i, h))
  {
    var pc := s.pcs[a.i];
    assert HandlesFit(s, pc);
    ThreadStepClaims(s, a, pc);
    AccountOfMove(s, ThreadStep(s, a, pc).0, a, a.i, ThreadStep(s, a, pc).1);
  }

  lemma StoreKeepsAccount(s: State, a: Action)
    requires Inv(s) && HandlesOk(s) && NoOrphans(s) && Enabled(s, a) && a.StoreMapping?
    ensures NoOrphans(Step(s, a)) <==> !OnlyMapped(s, s.pcs[a.i].t)
  {
    StoreStep(s, a);
    AccountOfStore(s, Step(s, a), a.i);
  }

  lemma RemoveKeepsAccount(s: State, a: Action)
    requires Inv(s) && NoOrphans(s) && Enabled(s, a) && a.RemoveMapping?
    ensures var pc := s.pcs[a.i];
            NoOrphans(Step(s, a)) <==> !(pc.t in s.mem && s.mem[pc.t] != pc.id && OnlyMapped(s, pc.t))
  {
    RemoveStep(s, a);
    AccountOfRemove(s, Step(s, a), a.i);
  }

  /** From every state whose objects are all accounted for, a step keeps the account if and only if it orphans none. */
  lemma OrphaningStepsAreTheFlaw(s: State, a: Action)
    requires Inv(s) && HandlesOk(s) && NoOrphans(s) && Enabled(s, a) && ByThread(a)
    ensures NoOrphans(Step(s, a)) <==> !Orphans(s, a)
  {
    if a.StoreMapping? {
      StoreKeepsAccount(s, a);
    } else if a.RemoveMapping? {
      RemoveKeepsAccount(s, a);
    } else {
      OtherStep(s, a);
    }
  }

  // ----- Runs that lose nothing -----

  /** The thread creates or destroys a key. */
  predicate Active(pc: Pc) { !pc.Idle? && !pc.Using? }

  /** No two operations under way are on one triple. */
  predicate TriplesApart(s: State) {
    forall i, j | 0 <= i < j < |s.pcs| && Active(s.pcs[i]) && Active(s.pcs[j]) :: s.pcs[i].t != s.pcs[j].t
  }

  /** No rollback or destroy call of the backend fails. */
  predicate Works(s: State, a: Action)
    requires Enabled(s, a) && ByThread(a)
  {
    (a.Undo? || a.DestroyKey? ==> a.gone) && (a.GiveUp? ==> !Destroying(s.pcs[a.i]))
  }

  /** A run of threads in which no such call fails and no operations on one triple overlap. */
  predicate Quiet(s: State, acts: seq<Action>)
    requires Possible(s, acts)
    decreases |acts|
  {
    && TriplesApart(Exec(s, acts))
    && (acts != [] ==>
          var before, a := acts[..|acts| - 1], acts[|acts| - 1];
          Quiet(s, before) && ByThread(a) && Works(Exec(s, before), a))
  }

  /** What a thread knows of the map when nobody else works on its triple. */
  predicate Informed(s: State, pc: Pc) {
    && (pc.Checked? || pc.Granted? || pc.Made? ==> pc.t !in s.mem)
    && (pc.Fetched? ==> Maps(s, pc.t, pc.id))
    && (pc.Found? ==> s.kind == P11)
  }

  predicate AllInformed(s: State) { forall i | 0 <= i < |s.pcs| :: Informed(s, s.pcs[i]) }

  lemma ThreadStepInforms(s: State, a: Action, pc: Pc)
    requires ThreadEnabled(s, a, pc) && Informed(s, pc)
    ensures var (s', pc') := ThreadStep(s, a, pc);
            && Informed(s', pc') && s'.kind == s.kind
            && (s'.mem == s.mem || (Active(pc) && s'.mem - {pc.t} == s.mem - {pc.t}))
  {
  }

  lemma OthersStayInformed(s: State, s1: State, i: nat, pc': Pc)
    requires AllInformed(s) && TriplesApart(s) && i < |s.pcs| && Informed(s1, pc') && s1.kind == s.kind
    requires s1.mem == s.mem || (Active(s.pcs[i]) && s1.mem - {s.pcs[i].t} == s.mem - {s.pcs[i].t})
    ensures AllInformed(s1.(pcs := s.pcs[i := pc']))
  {
    var s' := s1.(pcs := s.pcs[i := pc']);
    forall j | 0 <= j < |s'.pcs| ensures Informed(s', s'.pcs[j]) {
      if j != i && s1.mem != s.mem && Active(s.pcs[j]) {
        var t := s.pcs[j].t;
        assert Informed(s, s.pcs[j]) && t != s.pcs[i].t;
        assert t in s1.mem <==> t in s1.mem - {s.pcs[i].t};
        assert t in s.mem <==> t in s.mem - {s.pcs[i].t};
      } else if j != i {
        assert Informed(s, s.pcs[j]);
      }
    }
  }

  lemma StepInforms(s: State, a: Action)
    requires AllInformed(s) && TriplesApart(s) && Enabled(s, a) && ByThread(a)
    ensures AllInformed(Step(s, a))
  {
    var pc := s.pcs[a.i];
    assert Informed(s, pc);
    ThreadStepInforms(s, a, pc);
    OthersStayInformed(s, ThreadStep(s, a, pc).0, a.i, ThreadStep(s, a, pc).1);
  }

  lemma InformedStepsOrphanNothing(s: State, a: Action)
    requires Enabled(s, a) && ByThread(a) && Works(s, a) && Informed(s, s.pcs[a.i])
    requires s.kind == P11 ==> TokenFits(s, s.pcs[a.i])
    requires HandlesFit(s, s.pcs[a.i])
    ensures !Orphans(s, a)
  {
  }

  /** A running provider at rest whose objects are those of its mapped keys. */
  predicate Balanced(s: State) {
    && s.up && (s.kind == P11 ==> OnePair(s)) && (forall i | 0 <= i < |s.pcs| :: s.pcs[i].Idle?)
    && (forall h | h in s.objs :: Mapped(s, s.objs[h].id))
  }

  lemma BalancedIsClean(s: State)
    requires Balanced(s) && s.kind == P11
    ensures CleanToken(s)
  {
    forall h | h in s.objs ensures exists t | t in s.mem :: s.mem[t] == s.objs[h].id {
      assert Mapped(s, s.objs[h].id);
    }
  }

  /** What every step of a quiet run keeps. */
  predicate InOrder(s: State) {
    Inv(s) && HandlesOk(s) && NoOrphans(s) && AllInformed(s) && (s.kind == P11 ==> TokenOk(s))
  }

  lemma QuietStep(s: State, a: Action)
    requires InOrder(s) && TriplesApart(s) && Enabled(s, a) && ByThread(a) && Works(s, a)
    ensures InOrder(Step(s, a))
  {
    assert Informed(s, s.pcs[a.i]) && HandlesFit(s, s.pcs[a.i]);
    InformedStepsOrphanNothing(s, a);
    OrphaningStepsAreTheFlaw(s, a);
    StepInforms(s, a);
    StepKeepsInv(s, a);
    StepKeepsHandlesOk(s, a);
    StepMoves(s, a);
    if s.kind == P11 {
      StepKeepsToken(s, a);
    }
  }

  lemma {:induction false} QuietRunKeepsOrder(s: State, acts: seq<Action>)
    requires InOrder(s) && Possible(s, acts) && Quiet(s, acts)
    ensures InOrder(Exec(s, acts))
  {
    if acts == [] {
      assert Exec(s, acts) == s;
    } else {
      QuietRunKeepsOrder(s, acts[..|acts| - 1]);
      QuietStep(Exec(s, acts[..|acts| - 1]), acts[|acts| - 1]);
    }
  }

  lemma BalancedIsInOrder(s: State)
    requires Reachable(s) && Balanced(s)
    ensures InOrder(s)
  {
    ReachableHandles(s);
    if s.kind == P11 {
      BalancedIsClean(s);
      CleanIsOk(s);
    }
  }

  /**
   Every provider: from a state at rest in which the live keys are the mapped ones, in every run in which no
   rollback or destroy call fails and no operations on one triple overlap, no object is ever orphaned.
   */
  lemma NothingIsOrphaned(s: State, acts: seq<Action>)
    requires Reachable(s) && Balanced(s) && Possible(s, acts) && Quiet(s, acts)
    ensures NoOrphans(Exec(s, acts))
  {
    BalancedIsInOrder(s);
    QuietRunKeepsOrder(s, acts);
  }

  lemma ApartMeansNonOverlap(s: State)
    requires TriplesApart(s)
    ensures NonOverlap(s)
  {
  }

  lemma {:induction false} QuietMeansNoOverlap(s: State, acts: seq<Action>)
    requires Possible(s, acts) && Quiet(s, acts)
    ensures NeverOverlaps(s, acts)
  {
    ApartMeansNonOverlap(Exec(s, acts));
    if acts == [] {
      assert NonOverlap(Exec(s, acts));
    } else {
      QuietMeansNoOverlap(s, acts[..|acts| - 1]);
    }
  }

  lemma {:induction false} QuietIsByThreads(s: State, acts: seq<Action>)
    requires Possible(s, acts) && Quiet(s, acts)
    ensures forall a | a in acts :: ByThread(a)
  {
    if acts == [] {
      assert forall a :: a !in acts;
    } else {
      QuietIsByThreads(s, acts[..|acts| - 1]);
      assert acts == acts[..|acts| - 1] + [acts[|acts| - 1]];
    }
  }

  /** Whenever such a run is at rest again, the ids of the live keys are exactly the ids of the map. */
  lemma LiveIsMapped(s: State, acts: seq<Action>, id: nat)
    requires Reachable(s) && Balanced(s) && MappedLive(s) && Possible(s, acts) && Quiet(s, acts)
    requires forall i | 0 <= i < |Exec(s, acts).pcs| :: Exec(s, acts).pcs[i].Idle?
    ensures Live(Exec(s, acts), id) <==> Mapped(Exec(s, acts), id)
  {
    BalancedIsInOrder(s);
    QuietMeansNoOverlap(s, acts);
    QuietIsByThreads(s, acts);
    NonOverlapMeansNoOverwrite(s, acts);
    RunKeepsMappedLive(s, acts);
    NothingIsOrphaned(s, acts);
    RestMatches(Exec(s, acts), id);
  }

  lemma RestMatches(s: State, id: nat)
    requires MappedLive(s) && NoOrphans(s) && forall i | 0 <= i < |s.pcs| :: s.pcs[i].Idle?
    ensures Live(s, id) <==> Mapped(s, id)
  {
    if h :| h in s.objs && s.objs[h].id == id {
      assert Accounted(s, h);
      assert forall i | 0 <= i < |s.pcs| :: !ClaimedBy(s, i, h);
    }
  }

  // ----- A run that loses a key although no call fails -----

  function RaceAction(n: nat, t: KeyTriple): (a: Action) {
    if n == 0 then Restart(1)
    else if n == 1 then StartCreate(0, t)
    else if n == 2 then TakeId(0)
    else if n == 3 then Make(0, false)
    else if n == 4 then StoreMapping(0)
    else if n == 5 then StartDestroy(0, t)
    else if n == 6 then StartDestroy(1, t)
    else if n == 7 then RemoveMapping(1)
    else if n == 8 then DestroyKey(1, true)
    else if n == 9 then StartCreate(1, t)
    else if n == 10 then TakeId(1)
    else if n == 11 then Make(1, false)
    else if n == 12 then StoreMapping(1)
    else if n == 13 then RemoveMapping(0)
    else DestroyKey(0, true)
  }

  function RaceMap(n: nat, t: KeyTriple): (m: map<KeyTriple, nat>) {
    if 5 <= n < 8 then map[t := 2] else if n == 13 then map[t := 3] else map[]
  }

  function RacePcs(n: nat, t: KeyTriple): (pcs: seq<Pc>) {
    [if n == 2 then Checked(t) else if n == 3 then Granted(t, 2) else if n == 4 then Made(t, 2, [0])
     else if 6 <= n < 14 then Fetched(t, 2) else if n == 14 then Unmapped(t, 2) else Idle,
     if n == 7 then Fetched(t, 2) else if n == 8 then Unmapped(t, 2) else if n == 10 then Checked(t)
     else if n == 11 then Granted(t, 3) else if n == 12 then Made(t, 3, [1]) else Idle]
  }

  /** One thread reads an id to destroy; another destroys the key and makes it anew; the first removes the new mapping. */
  function RaceState(n: nat, t: KeyTriple): (s: State) {
    State(Mbed, n > 0, RaceMap(n, t),
          if 5 <= n < 8 then map[t := Good(2)] else if n == 13 then map[t := Good(3)] else map[],
          if 4 <= n < 9 then map[0 := Object(2, Whole)] else if n >= 12 then map[1 := Object(3, Whole)] else map[],
          if n < 4 then 0 else if n < 12 then 1 else 2,
          if n == 0 then ByDraw({}) else ByCounter(Counter(if n < 3 then 1 else if n < 11 then 2 else 3, {})),
          if n < 3 then map[] else if n < 11 then map[2 := t] else map[2 := t, 3 := t],
          RacePcs(n, t), if n == 4 then Some(0) else if n == 12 then Some(1) else None)
  }

  lemma RaceCreates(n: nat, t: KeyTriple)
    requires n < 4
    ensures Enabled(RaceState(n, t), RaceAction(n, t))
    ensures Step(RaceState(n, t), RaceAction(n, t)) == RaceState(n + 1, t)
  {
    assert n == 0 ==> Kept(RaceState(n, t)) == map[];
    var s, e := Step(RaceState(n, t), RaceAction(n, t)), RaceState(n + 1, t);
    assert s.mem == e.mem && s.disk == e.disk && s.owner == e.owner && s.objs == e.objs && s.alloc == e.alloc;
    assert s.pcs[0] == e.pcs[0] && s.pcs[1] == e.pcs[1];
    assert s.pcs == e.pcs;
  }

  lemma RaceStores(n: nat, t: KeyTriple)
    requires 4 <= n < 6
    ensures Enabled(RaceState(n, t), RaceAction(n, t))
    ensures Step(RaceState(n, t), RaceAction(n, t)) == RaceState(n + 1, t)
  {
    var s, e := Step(RaceState(n, t), RaceAction(n, t)), RaceState(n + 1, t);
    assert s.mem == e.mem && s.disk == e.disk && s.owner == e.owner && s.objs == e.objs && s.alloc == e.alloc;
    assert s.pcs[0] == e.pcs[0] && s.pcs[1] == e.pcs[1];
    assert s.pcs == e.pcs;
  }

  lemma RaceDestroys(n: nat, t: KeyTriple)
    requires 6 <= n < 9
    ensures Enabled(RaceState(n, t), RaceAction(n, t))
    ensures Step(RaceState(n, t), RaceAction(n, t)) == RaceState(n + 1, t)
  {
    var s, e := Step(RaceState(n, t), RaceAction(n, t)), RaceState(n + 1, t);
    assert s.mem == e.mem && s.disk == e.disk && s.owner == e.owner && s.objs == e.objs && s.alloc == e.alloc;
    assert s.pcs[0] == e.pcs[0] && s.pcs[1] == e.pcs[1];
    assert s.pcs == e.pcs;
  }

  lemma RaceCreatesAnew(n: nat, t: KeyTriple)
    requires 9 <= n < 13
    ensures Enabled(RaceState(n, t), RaceAction(n, t))
    ensures Step(RaceState(n, t), RaceAction(n, t)) == RaceState(n + 1, t)
  {
    var s, e := Step(RaceState(n, t), RaceAction(n, t)), RaceState(n + 1, t);
    assert s.mem == e.mem && s.disk == e.disk && s.owner == e.owner && s.objs == e.objs && s.alloc == e.alloc;
    assert s.pcs[0] == e.pcs[0] && s.pcs[1] == e.pcs[1];
    assert s.pcs == e.pcs;
  }

  lemma RaceLoses(n: nat, t: KeyTriple)
    requires 13 <= n < 15
    ensures Enabled(RaceState(n, t), RaceAction(n, t))
    ensures Step(RaceState(n, t), RaceAction(n, t)) == RaceState(n + 1, t)
  {
    var s, e := Step(RaceState(n, t), RaceAction(n, t)), RaceState(n + 1, t);
    assert s.mem == e.mem && s.disk == e.disk && s.owner == e.owner && s.objs == e.objs && s.alloc == e.alloc;
    assert s.pcs[0] == e.pcs[0] && s.pcs[1] == e.pcs[1];
    assert s.pcs == e.pcs;
  }

  lemma {:induction false} RaceStateIsReachable(n: nat, t: KeyTriple)
    requires n <= 15
    ensures Reachable(RaceState(n, t))
  {
    if n == 0 {
      var s := RaceState(0, t);
      assert Possible(s, []) && Exec(s, []) == s;
    } else {
      RaceStateIsReachable(n - 1, t);
      if n <= 4 {
        RaceCreates(n - 1, t);
      } else if n <= 6 {
        RaceStores(n - 1, t);
      } else if n <= 9 {
        RaceDestroys(n - 1, t);
      } else if n <= 13 {
        RaceCreatesAnew(n - 1, t);
      } else {
        RaceLoses(n - 1, t);
      }
      ReachableExtends(RaceState(n - 1, t), RaceAction(n - 1, t));
    }
  }

  /** The hypothesis is needed: a destroy that overlaps a destroy and a creation of its triple loses the new key. */
  lemma RecreatedKeyIsOrphaned(t: KeyTriple)
    ensures exists s :: Reachable(s) && s.kind == Mbed && !NoOrphans(s) && forall i | 0 <= i < |s.pcs| :: s.pcs[i].Idle?
  {
    var s := RaceState(15, t);
    RaceStateIsReachable(15, t);
    assert forall i | 0 <= i < |s.pcs| :: s.pcs[i].Idle?;
    assert 1 in s.objs && !Mapped(s, 3) && forall i | 0 <= i < |s.pcs| :: !ClaimedBy(s, i, 1);
    assert !Accounted(s, 1);
  }
}
