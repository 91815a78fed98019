/** The objects of a PKCS 11 token: a destroy that returns Ok leaves nothing of the key behind. */
module Pkcs11Token {
  import opened Types
  import opened Lifecycle
  import opened LifecycleIds
  import opened LifecycleKeys

  /** An id has at most one public and one private object. */
  predicate OnePair(s: State) {
    && (forall h | h in s.objs :: !s.objs[h].part.Whole?)
    && (forall h, k | h in s.objs && k in s.objs && s.objs[h] == s.objs[k] :: h == k)
  }

  /** No object has an id that could still be drawn. */
  predicate Covered(s: State) { s.alloc.ByDraw? && forall h | h in s.objs :: s.objs[h].id in s.alloc.localIds }

  /** An id that is granted and not yet used has no object; once a destroy has removed one, at most one is left. */
  predicate TokenFits(s: State, pc: Pc) {
    && (pc.Granted? ==> !Live(s, pc.id))
    && (pc.FirstGone? || (pc.Found? && !pc.first) ==>
          forall h, k | h in s.objs && k in s.objs && s.objs[h].id == pc.id && s.objs[k].id == pc.id :: h == k)
  }

  predicate TokenOk(s: State) {
    s.kind == P11 && OnePair(s) && Covered(s) && forall i | 0 <= i < |s.pcs| :: TokenFits(s, s.pcs[i])
  }

  /** The objects after a creation: the old ones, and one or two new ones with parts of their own. */
  lemma MakeAdds(s: State, a: Action, pc: Pc)
    requires ThreadEnabled(s, a, pc) && a.Make? && s.kind == P11
    ensures var objs := ThreadStep(s, a, pc).0.objs;
            && (a.pair ==> objs == s.objs[s.next := Object(pc.id, Public)][s.next + 1 := Object(pc.id, Private)])
            && (!a.pair ==> objs == s.objs[s.next := Object(pc.id, Public)])
    ensures ThreadStep(s, a, pc).0.alloc == s.alloc && ThreadStep(s, a, pc).1.Made?
  {
  }

  /** New objects of a new id keep the pairs apart. */
  lemma AddKeepsPairs(s: State, s': State, id: nat, pair: bool)
    requires OnePair(s) && !Live(s, id) && forall h | h in s.objs :: h < s.next
    requires s'.objs == if pair then s.objs[s.next := Object(id, Public)][s.next + 1 := Object(id, Private)]
                        else s.objs[s.next := Object(id, Public)]
    ensures OnePair(s')
  {
    forall h, k | h in s'.objs && k in s'.objs && s'.objs[h] == s'.objs[k] ensures h == k {
      if h in s.objs {
        assert s.objs[h].id != id;
      }
      if k in s.objs {
        assert s.objs[k].id != id;
      }
    }
  }

  lemma MakeKeepsToken(s: State, a: Action, pc: Pc)
    requires ThreadEnabled(s, a, pc) && a.Make? && s.kind == P11 && OnePair(s) && Covered(s) && TokenFits(s, pc)
    requires pc.id in s.alloc.localIds && forall h | h in s.objs :: h < s.next
    ensures var (s', pc') := ThreadStep(s, a, pc); OnePair(s') && Covered(s') && TokenFits(s', pc')
  {
    MakeAdds(s, a, pc);
    AddKeepsPairs(s, ThreadStep(s, a, pc).0, pc.id, a.pair);
  }

  lemma LossKeepsToken(s: State, a: Action, pc: Pc)
    requires ThreadEnabled(s, a, pc) && (a.Undo? || a.DestroyObject?) && OnePair(s) && Covered(s) && TokenFits(s, pc)
    requires HandlesFit(s, pc)
    ensures var (s', pc') := ThreadStep(s, a, pc); OnePair(s') && Covered(s') && TokenFits(s', pc')
  {
    var (s', pc') := ThreadStep(s, a, pc);
    if pc'.FirstGone? {
      forall h, k | h in s'.objs && k in s'.objs && s'.objs[h].id == pc.id && s'.objs[k].id == pc.id ensures h == k {
        assert s.objs[h] != s.objs[pc.h] && s.objs[k] != s.objs[pc.h];
      }
    }
  }

  lemma ThreadStepToken(s: State, a: Action, pc: Pc)
    requires ThreadEnabled(s, a, pc) && s.kind == P11 && OnePair(s) && Covered(s) && TokenFits(s, pc)
        && HandlesFit(s, pc)
    requires HasId(pc) ==> pc.id in s.alloc.localIds
    requires forall h | h in s.objs :: h < s.next
    ensures var (s', pc') := ThreadStep(s, a, pc); s'.kind == P11 && OnePair(s') && Covered(s') && TokenFits(s', pc')
  {
    if a.Make? {
      MakeKeepsToken(s, a, pc);
    } else if a.Undo? || a.DestroyObject? {
      LossKeepsToken(s, a, pc);
    } else {
      assert ThreadStep(s, a, pc).0.objs == s.objs;
    }
  }

  lemma TokenSurvives(s: State, s1: State, i: nat, pc': Pc)
    requires Inv(s) && HandlesOk(s) && TokenOk(s) && i < |s.pcs| && ObjSource(s, s1, s.pcs[i], pc')
    requires s1.kind == P11 && OnePair(s1) && Covered(s1) && TokenFits(s1, pc')
    ensures TokenOk(s1.(pcs := s.pcs[i := pc']))
  {
    var s' := s1.(pcs := s.pcs[i := pc']);
    forall j | 0 <= j < |s'.pcs| ensures TokenFits(s', s'.pcs[j]) {
      if j != i {
        assert TokenFits(s, s.pcs[j]) && Apart(s, j) && Apart(s, i);
      }
    }
  }

  lemma StepKeepsToken(s: State, a: Action)
    requires Inv(s) && HandlesOk(s) && TokenOk(s) && Enabled(s, a) && ByThread(a)
    ensures TokenOk(Step(s, a))
  {
    var pc := s.pcs[a.i];
    assert TokenFits(s, pc) && HandlesFit(s, pc) && OwnId(s, pc);
    ThreadStepObjects(s, a, pc);
    ThreadStepToken(s, a, pc);
    TokenSurvives(s, ThreadStep(s, a, pc).0, a.i, ThreadStep(s, a, pc).1);
  }

  lemma {:induction false} RunKeepsToken(s: State, acts: seq<Action>)
    requires Inv(s) && HandlesOk(s) && TokenOk(s) && Possible(s, acts) && forall a | a in acts :: ByThread(a)
    ensures TokenOk(Exec(s, acts))
  {
    if acts == [] {
    } else {
      var before := acts[..|acts| - 1];
      assert forall b | b in before :: b in acts;
      RunKeepsToken(s, before);
      RunKeepsHandles(s, before);
      StepKeepsToken(Exec(s, before), acts[|acts| - 1]);
    }
  }

  /** A running provider at rest on a token where every object belongs to a mapped key. */
  predicate CleanToken(s: State) {
    && s.up && s.kind == P11 && OnePair(s)
    && (forall i | 0 <= i < |s.pcs| :: s.pcs[i].Idle?)
    && (forall h | h in s.objs :: exists t | t in s.mem :: s.mem[t] == s.objs[h].id)
  }

  lemma CleanIsOk(s: State)
    requires Inv(s) && CleanToken(s)
    ensures TokenOk(s)
  {
  }

  /** The step with which a destroy returns Ok. */
  predicate ReturnsOk(s: State, a: Action)
    requires Enabled(s, a)
  {
    (a.FindNone? && s.pcs[a.i].FirstGone?) || (a.DestroyObject? && !s.pcs[a.i].first)
  }

  /**
   From a clean token, in every interleaving: when a destroy returns Ok, the token holds no object with
   the id of the key it destroyed.
   */
  lemma DestroyLeavesNothing(s: State, acts: seq<Action>, a: Action)
    requires Reachable(s) && CleanToken(s) && Possible(s, acts) && forall b | b in acts :: ByThread(b)
    requires Enabled(Exec(s, acts), a) && ReturnsOk(Exec(s, acts), a)
    ensures !Live(Step(Exec(s, acts), a), Exec(s, acts).pcs[a.i].id)
  {
    ReachableHandles(s);
    CleanIsOk(s);
    RunKeepsToken(s, acts);
    RunKeepsHandles(s, acts);
    OkDestroyEmpties(Exec(s, acts), a);
  }

  lemma OkDestroyEmpties(s: State, a: Action)
    requires Inv(s) && HandlesOk(s) && TokenOk(s) && Enabled(s, a) && ReturnsOk(s, a)
    ensures !Live(Step(s, a), s.pcs[a.i].id)
  {
    assert TokenFits(s, s.pcs[a.i]) && HandlesFit(s, s.pcs[a.i]);
  }

  // ----- Why the token must be clean -----

  function ZombieAction(n: nat, t: KeyTriple): (a: Action) {
    if n == 0 then Restart(1)
    else if n == 1 then StartCreate(0, t)
    else if n == 2 then DrawId(0, 7)
    else if n == 3 then Make(0, true)
    else if n == 4 then StoreMapping(0)
    else if n == 5 then StartDestroy(0, t)
    else if n == 6 then RemoveMapping(0)
    else if n == 7 then Find(0, 1)
    else if n == 8 then DestroyObject(0)
    else if n == 9 then Find(0, 2)
    else DestroyObject(0)
  }

  /** A run on a token that holds an unmapped object, whose id is then drawn for a new key. */
  function ZombieState(n: nat, t: KeyTriple): (s: State) {
    var zombie := map[0 := Object(7, Public)];
    State(P11, n > 0,
          if 5 <= n < 7 then map[t := 7] else map[],
          if 5 <= n < 7 then map[t := Good(7)] else map[],
          if n < 4 || n > 10 then zombie
          else if n < 9 then zombie[1 := Object(7, Public)][2 := Object(7, Private)]
          else zombie[2 := Object(7, Private)],
          if n < 4 then 1 else 3,
          ByDraw(if n < 3 then {} else {7}),
          if n < 3 then map[] else map[7 := t],
          [if n == 2 then Checked(t) else if n == 3 then Granted(t, 7) else if n == 4 then Made(t, 7, [1, 2])
           else if n == 6 then Fetched(t, 7) else if n == 7 then Unmapped(t, 7) else if n == 8 then Found(t, 7, 1, true)
           else if n == 9 then FirstGone(t, 7) else if n == 10 then Found(t, 7, 2, false) else Idle],
          None)
  }

  lemma ZombieCreated(n: nat, t: KeyTriple)
    requires n < 5
    ensures Enabled(ZombieState(n, t), ZombieAction(n, t))
    ensures Step(ZombieState(n, t), ZombieAction(n, t)) == ZombieState(n + 1, t)
  {
    assert n == 0 ==> Kept(ZombieState(n, t)) == map[];
    var s, e := Step(ZombieState(n, t), ZombieAction(n, t)), ZombieState(n + 1, t);
    assert s.mem == e.mem && s.disk == e.disk && s.owner == e.owner && s.objs == e.objs && s.alloc == e.alloc;
    assert s.pcs[0] == e.pcs[0];
    assert s.pcs == e.pcs;
  }

  lemma ZombieUnmapped(n: nat, t: KeyTriple)
    requires 5 <= n < 8
    ensures Enabled(ZombieState(n, t), ZombieAction(n, t))
    ensures Step(ZombieState(n, t), ZombieAction(n, t)) == ZombieState(n + 1, t)
  {
    var s, e := Step(ZombieState(n, t), ZombieAction(n, t)), ZombieState(n + 1, t);
    assert s.mem == e.mem && s.disk == e.disk && s.owner == e.owner && s.objs == e.objs;
    assert s.pcs[0] == e.pcs[0];
    assert s.pcs == e.pcs;
  }

  lemma ZombieDestroyed(n: nat, t: KeyTriple)
    requires 8 <= n < 11
    ensures Enabled(ZombieState(n, t), ZombieAction(n, t))
    ensures Step(ZombieState(n, t), ZombieAction(n, t)) == ZombieState(n + 1, t)
  {
    var s, e := Step(ZombieState(n, t), ZombieAction(n, t)), ZombieState(n + 1, t);
    assert s.mem == e.mem && s.disk == e.disk && s.owner == e.owner && s.objs == e.objs;
    assert s.pcs[0] == e.pcs[0];
    assert s.pcs == e.pcs;
  }

  lemma {:induction false} ZombieStateIsReachable(n: nat, t: KeyTriple)
    requires n <= 11
    ensures Reachable(ZombieState(n, t))
  {
    if n == 0 {
      assert Possible(ZombieState(0, t), []) && Exec(ZombieState(0, t), []) == ZombieState(0, t);
    } else {
      ZombieStateIsReachable(n - 1, t);
      if n <= 5 {
        ZombieCreated(n - 1, t);
      } else if n <= 8 {
        ZombieUnmapped(n - 1, t);
      } else {
        ZombieDestroyed(n - 1, t);
      }
      ReachableExtends(ZombieState(n - 1, t), ZombieAction(n - 1, t));
    }
  }

  /** The hypothesis is needed: with an unmapped object on the token a destroy can return Ok and leave one behind. */
  lemma UnmappedObjectSurvivesDestroy(t: KeyTriple)
    ensures exists s, a :: Reachable(s) && Enabled(s, a) && ReturnsOk(s, a) && Live(Step(s, a), s.pcs[a.i].id)
  {
    var s, a := ZombieState(10, t), ZombieAction(10, t);
    ZombieStateIsReachable(10, t);
    ZombieDestroyed(10, t);
    assert ReturnsOk(s, a);
    assert Step(s, a).objs[0].id == 7;
  }
}
