/**
 The Mbed Crypto, Trusted Service and PKCS 11 provider objects: `psa_generate_key`, `psa_import_key` and
 `psa_destroy_key` call by call. Each call is a step of the lifecycle machine and each operation a run of it.
 */
module Providers {
  import opened Types
  import opened IdAllocator
  import opened Lifecycle
  import opened LifecycleIds
  import opened Pkcs11Token

  /** Which calls of a creation fail; a failed insert leaves something in place of the mapping file. */
  datatype CreateFaults = CreateFaults(
    session: bool, backend: bool, store: Option<Leftover>, undoFirst: bool, undoSecond: bool)
  {
    /** Every rollback call of a key, or of a pair of keys, works. */
    predicate UndoWorks(pair: bool) { !undoFirst && (pair ==> !undoSecond) }
  }

  /** Which calls of a destroy fail. */
  datatype DestroyFaults = DestroyFaults(store: bool, session: bool, first: bool, again: bool, second: bool)

  /** One backend id for the map: some object carries it. */
  predicate LiveIn(objs: map<nat, Object>, id: nat) { exists h | h in objs :: objs[h].id == id }

  /** No two objects carry the id. */
  predicate OneIn(objs: map<nat, Object>, id: nat) {
    forall h, k | h in objs && k in objs && objs[h].id == id && objs[k].id == id :: h == k
  }

  /** No three objects carry the id. */
  predicate AtMostTwoIn(objs: map<nat, Object>, id: nat) {
    forall h, k, l | h in objs && k in objs && l in objs && objs[h].id == id && objs[k].id == id && objs[l].id == id ::
      h == k || h == l || k == l
  }

  /** On a token where an id has at most one public and one private object, a destroy takes away all of them. */
  lemma PairsAreAtMostTwo(s: State, id: nat)
    requires OnePair(s)
    ensures AtMostTwoIn(s.objs, id)
  {
    forall h, k, l | h in s.objs && k in s.objs && l in s.objs && s.objs[h].id == id && s.objs[k].id == id
      && s.objs[l].id == id
      ensures h == k || h == l || k == l
    {
      assert s.objs[h].part == s.objs[k].part || s.objs[h].part == s.objs[l].part || s.objs[k].part == s.objs[l].part;
    }
  }

  predicate Carries(objs: map<nat, Object>, id: nat, h: nat) { h in objs && objs[h].id == id }

  lemma OneDestroyed(objs: map<nat, Object>, id: nat, h: nat)
    requires Carries(objs, id, h)
    ensures LiveIn(objs - {h}, id) <==> !OneIn(objs, id)
    ensures Drop(objs - {h}, id) == Drop(objs, id)
    ensures OneIn(objs, id) <==> objs - {h} == Drop(objs, id)
  {
    if !OneIn(objs, id) {
      var k, l :| k in objs && l in objs && objs[k].id == id && objs[l].id == id && k != l;
      var other := if k == h then l else k;
      assert Carries(objs - {h}, id, other) && other !in Drop(objs, id);
    }
  }

  /** One object less: at most two become at most one. */
  lemma TwoAreOneMore(objs: map<nat, Object>, id: nat, h: nat)
    requires Carries(objs, id, h)
    ensures AtMostTwoIn(objs, id) <==> OneIn(objs - {h}, id)
  {
    var rest := objs - {h};
    if AtMostTwoIn(objs, id) {
      forall k, l | k in rest && l in rest && rest[k].id == id && rest[l].id == id ensures k == l {
        assert h in objs && k in objs && l in objs && objs[h].id == id && objs[k].id == id && objs[l].id == id;
      }
    }
    if OneIn(rest, id) {
      forall k, l, m | k in objs && l in objs && m in objs && objs[k].id == id && objs[l].id == id && objs[m].id == id
        ensures k == l || k == m || l == m
      {
        assert forall x | x in objs && x != h :: x in rest && rest[x] == objs[x];
      }
    }
  }

  /** What is left once one object of an id and then perhaps another one are gone. */
  lemma DestroyedInTurn(objs: map<nat, Object>, id: nat, h: nat, objs': map<nat, Object>)
    requires Carries(objs, id, h)
    requires objs' == objs - {h} || exists k :: Carries(objs - {h}, id, k) && objs' == objs - {h} - {k}
    ensures LiveIn(objs - {h}, id) <==> !OneIn(objs, id)
    ensures Drop(objs', id) == Drop(objs, id)
    ensures objs' != objs - {h} || OneIn(objs, id) ==> (objs' == Drop(objs, id) <==> AtMostTwoIn(objs, id))
  {
    OneDestroyed(objs, id, h);
    TwoAreOneMore(objs, id, h);
    if k :| Carries(objs - {h}, id, k) && objs' == objs - {h} - {k} {
      OneDestroyed(objs - {h}, id, k);
    }
  }

  function Set(handles: seq<nat>): (r: set<nat>) { set h | h in handles }

  /** The backend has gained one object of the id, or two, and lost nothing. */
  predicate Gained(before: map<nat, Object>, after: map<nat, Object>, id: nat, pair: bool) {
    && |after| == |before| + (if pair then 2 else 1)
    && (forall h | h in before :: h in after && after[h] == before[h])
    && (forall h | h in after && h !in before :: after[h].id == id)
  }

  /** The backend with the objects of a new key: a whole one, a public one, or a public and a private one. */
  function WithKey(objs: map<nat, Object>, next: nat, id: nat, kind: Kind, pair: bool): (r: map<nat, Object>) {
    var first := objs[next := Object(id, if kind == P11 then Public else Whole)];
    if pair then first[next + 1 := Object(id, Private)] else first
  }

  function NewHandles(next: nat, pair: bool): (r: seq<nat>) { if pair then [next, next + 1] else [next] }

  lemma KeyIsGained(objs: map<nat, Object>, next: nat, id: nat, kind: Kind, pair: bool)
    requires forall h | h in objs :: h < next
    ensures var objs' := WithKey(objs, next, id, kind, pair);
            objs' - Set(NewHandles(next, pair)) == objs && Gained(objs, objs', id, pair) && LiveIn(objs', id)
  {
    assert WithKey(objs, next, id, kind, pair)[next].id == id;
    assert |WithKey(objs, next, id, kind, false)| == |objs| + 1;
    assert Set(NewHandles(next, pair)) == if pair then {next, next + 1} else {next};
  }

  /** The first id of the draws that is not in use. */
  predicate IsFirstUnused(draws: seq<nat>, used: set<nat>, id: nat) {
    id !in used && exists k | 0 <= k < |draws| :: draws[k] == id && forall j | 0 <= j < k :: draws[j] in used
  }

  /** The handles whose rollback call works. */
  function Undone(handles: seq<nat>, failsFirst: bool, failsSecond: bool): (r: set<nat>)
    requires 1 <= |handles| <= 2
  {
    (if failsFirst then {} else {handles[0]}) + (if |handles| == 2 && !failsSecond then {handles[1]} else {})
  }

  lemma AllUndone(handles: seq<nat>)
    requires 1 <= |handles| <= 2
    ensures Undone(handles, false, false) == Set(handles)
    ensures |handles| == 1 ==> Undone(handles, false, true) == Set(handles)
  {
  }

  lemma TakeRuns(s: State)
    requires s.up && |s.pcs| == 1 && s.pcs[0].Checked? && s.alloc.ByCounter?
    ensures var (c, id) := FetchAdd(s.alloc.counter, 0);
            Runs(s, [TakeId(0)],
                 if id.None? then s.(alloc := ByCounter(c), pcs := [Refused(s.pcs[0].t)])
                 else s.(alloc := ByCounter(c), owner := s.owner[id.value := s.pcs[0].t],
                         pcs := [Granted(s.pcs[0].t, id.value)]))
  {
    RunsOne(s, TakeId(0));
    assert Step(s, TakeId(0)).pcs == [Step(s, TakeId(0)).pcs[0]];
  }

  lemma MakeRuns(s: State, pair: bool)
    requires s.up && |s.pcs| == 1 && s.pcs[0].Granted? && s.lock == None && (pair ==> s.kind == P11)
    requires s.kind != P11 ==> !Live(s, s.pcs[0].id)
    ensures var pc := s.pcs[0];
            Runs(s, [Make(0, pair)],
                 s.(objs := WithKey(s.objs, s.next, pc.id, s.kind, pair), next := s.next + (if pair then 2 else 1),
                    lock := if s.kind == Mbed then Some(0) else None,
                    pcs := [Made(pc.t, pc.id, NewHandles(s.next, pair))]))
  {
    RunsOne(s, Make(0, pair));
    assert Step(s, Make(0, pair)).pcs == [Step(s, Make(0, pair)).pcs[0]];
  }

  lemma UndoRuns(s: State, gone: bool)
    requires s.up && |s.pcs| == 1 && s.pcs[0].Undoing? && s.pcs[0].handles != []
    ensures var pc := s.pcs[0];
            Runs(s, [Undo(0, gone)],
                 s.(objs := if gone then s.objs - {pc.handles[0]} else s.objs,
                    pcs := [Undoing(pc.t, pc.id, pc.handles[1..], pc.overwrote)]))
  {
    RunsOne(s, Undo(0, gone));
    assert Step(s, Undo(0, gone)).pcs == [Step(s, Undo(0, gone)).pcs[0]];
  }

  /** When the backend half of a destroy works: a PSA key in one call, a token key object by object. */
  predicate BackendDestroys(kind: Kind, objs: map<nat, Object>, id: nat, faults: DestroyFaults) {
    if kind != P11 then !faults.first
    else LiveIn(objs, id) && !faults.session && !faults.first && !faults.again && (faults.second ==> OneIn(objs, id))
  }

  /** The id is the next one of the counter, or the first draw that was not in use and now is. */
  predicate IsNewId(kind: Kind, draws: seq<nat>, used: set<nat>, used': set<nat>, counter: nat, counter': nat,
                    id: nat) {
    if kind == P11 then IsFirstUnused(draws, used, id) && used' == used + {id} else id == counter' == counter + 1
  }

  /** The counter has an id left, and the PSA backend no key of it. */
  predicate HasNewId(counter: nat, objs: map<nat, Object>) {
    counter < PSA_KEY_ID_USER_MAX && !LiveIn(objs, counter + 1)
  }

  class Provider {
    const kind: Kind
    var mem: map<KeyTriple, nat>
    var disk: map<KeyTriple, File>
    var idCounter: nat
    var localIds: set<nat>
    var objs: map<nat, Object>
    var next: nat
    ghost var owner: map<nat, KeyTriple>
    ghost var pc: Pc

    constructor (kind: Kind)
      ensures this.kind == kind && mem == map[] && disk == map[] && objs == map[] && pc == Idle && Inv(Abs())
    {
      this.kind, mem, disk, idCounter, localIds, objs, next := kind, map[], map[], PSA_KEY_ID_USER_MIN, {}, map[], 0;
      owner, pc := map[], Idle;
    }

    /** The state of the machine with this provider and one thread. */
    ghost function Abs(): (s: State)
      reads this
    {
      State(kind, true, mem, disk, objs, next,
            if kind == P11 then ByDraw(localIds) else ByCounter(Counter(idCounter, if pc.Refused? then {0} else {})),
            owner, [pc], if kind == Mbed && (pc.Made? || pc.Undoing?) then Some(0) else None)
    }

    /** `does_not_exist`. */
    method CheckAbsent(t: KeyTriple) returns (absent: bool)
      requires pc.Idle?
      modifies this`pc
      ensures Runs(old(Abs()), [StartCreate(0, t)], Abs())
      ensures absent <==> t !in mem
      ensures pc == if absent then Checked(t) else Idle
    {
      RunsOne(Abs(), StartCreate(0, t));
      absent := t !in mem;
      if absent { pc := Checked(t); }
    }

    /** The increment of `create_key_id`. */
    method IncrementCounter() returns (id: Option<nat>)
      requires pc.Checked? && kind != P11 && idCounter < TWO_TO_THE_32
      modifies this`idCounter, this`owner, this`pc
      ensures Runs(old(Abs()), [TakeId(0)], Abs())
      ensures if id.Some? then pc == Granted(old(pc.t), id.value) else pc == Refused(old(pc.t))
      ensures old(idCounter) < PSA_KEY_ID_USER_MAX ==> id == Some(old(idCounter) + 1) && idCounter == old(idCounter) + 1
      ensures PSA_KEY_ID_USER_MAX <= old(idCounter) < TWO_TO_THE_32 - 1 ==> id == None
    {
      TakeRuns(Abs());
      var newId := (idCounter + 1) % TWO_TO_THE_32;
      idCounter := newId;
      if newId > PSA_KEY_ID_USER_MAX {
        pc := Refused(pc.t);
        assert {} + {0} == {0};
        return None;
      }
      owner, pc := owner[newId := pc.t], Granted(pc.t, newId);
      return Some(newId);
    }

    /** The store of `create_key_id` after a refusal. */
    method ResetCounter()
      requires pc.Refused? && kind != P11
      modifies this`idCounter, this`pc
      ensures Runs(old(Abs()), [StoreMaximum(0)], Abs()) && pc.Idle? && idCounter == PSA_KEY_ID_USER_MAX
    {
      RunsOne(Abs(), StoreMaximum(0));
      idCounter := PSA_KEY_ID_USER_MAX;
      pc := Idle;
      assert {0} - {0} == {};
    }

    /** `create_key_id` of PKCS 11: redraws until the id is not in use; the draws are given. */
    method DrawKeyId(draws: seq<nat>) returns (id: nat)
      requires pc.Checked? && kind == P11
      requires (forall d | d in draws :: d < TWO_TO_THE_32) && exists d | d in draws :: d !in localIds
      modifies this`localIds, this`owner, this`pc
      ensures Runs(old(Abs()), [DrawId(0, id)], Abs())
      ensures IsFirstUnused(draws, old(localIds), id) && localIds == old(localIds) + {id}
      ensures pc == Granted(old(pc.t), id)
    {
      ghost var new' :| 0 <= new' < |draws| && draws[new'] !in localIds;
      var k := 0;
      id := draws[0];
      while id in localIds
        invariant 0 <= k <= new' && id == draws[k]
        invariant forall j | 0 <= j < k :: draws[j] in localIds
        decreases |draws| - k
      {
        k := k + 1;
        id := draws[k];
      }
      assert id in draws;
      RunsOne(Abs(), DrawId(0, id));
      localIds := localIds + {id};
      owner, pc := owner[id := pc.t], Granted(pc.t, id);
    }

    /** A PSA key, or the public object of an imported PKCS 11 key. */
    method MakeOne(id: nat) returns (handles: seq<nat>)
      requires pc.Granted? && pc.id == id && (kind != P11 ==> !LiveIn(objs, id))
      modifies this`objs, this`next, this`pc
      ensures Runs(old(Abs()), [Make(0, false)], Abs())
      ensures handles == NewHandles(old(next), false) && pc == Made(old(pc.t), id, handles)
      ensures objs == WithKey(old(objs), old(next), id, kind, false)
    {
      MakeRuns(Abs(), false);
      objs := objs[next := Object(id, if kind == P11 then Public else Whole)];
      handles := [next];
      pc := Made(pc.t, id, handles);
      next := next + 1;
    }

    /** The public and the private object of a generated PKCS 11 key pair. */
    method MakePair(id: nat) returns (handles: seq<nat>)
      requires pc.Granted? && pc.id == id && kind == P11
      modifies this`objs, this`next, this`pc
      ensures Runs(old(Abs()), [Make(0, true)], Abs())
      ensures handles == NewHandles(old(next), true) && pc == Made(old(pc.t), id, handles)
      ensures objs == WithKey(old(objs), old(next), id, kind, true)
    {
      MakeRuns(Abs(), true);
      objs := objs[next := Object(id, Public)][next + 1 := Object(id, Private)];
      handles := [next, next + 1];
      pc := Made(pc.t, id, handles);
      next := next + 2;
    }

    /** The backend creation, which may fail. */
    method MakeKey(id: nat, pair: bool, fails: bool) returns (handles: Option<seq<nat>>)
      requires pc.Granted? && pc.id == id && (pair ==> kind == P11) && forall h | h in objs :: h < next
      modifies this`objs, this`next, this`pc
      ensures Runs(old(Abs()), [if handles.None? then Abandon(0) else Make(0, pair)], Abs())
      ensures handles.Some? <==> !fails && (kind != P11 ==> !LiveIn(old(objs), id))
      ensures handles.Some? ==> pc == Made(old(pc.t), id, handles.value) && Gained(old(objs), objs, id, pair)
      ensures handles.None? ==> objs == old(objs) && pc.Idle?
      ensures handles.Some? ==> |handles.value| == (if pair then 2 else 1)
      ensures handles.Some? ==> objs - Set(handles.value) == old(objs) && LiveIn(objs, id)
    {
      if fails || (kind != P11 && LiveIn(objs, id)) {
        RunsOne(Abs(), Abandon(0));
        pc := Idle;
        return None;
      }
      KeyIsGained(objs, next, id, kind, pair);
      var made;
      if pair {
        made := MakePair(id);
      } else {
        made := MakeOne(id);
      }
      return Some(made);
    }

    /** `insert_key_info`: an overwritten mapping is reported as an error. */
    method StoreKey(t: KeyTriple, id: nat, fault: Option<Leftover>) returns (ok: bool)
      requires pc.Made? && pc.t == t && pc.id == id
      modifies this`mem, this`disk, this`pc
      ensures Runs(old(Abs()), [if fault.None? then StoreMapping(0) else StoreMappingFails(0, fault.value)], Abs())
      ensures ok <==> pc.Idle?
      ensures !ok ==> pc == Undoing(t, id, old(pc.handles), fault.None?)
      ensures mem == if fault.None? then old(mem)[t := id] else old(mem)
      ensures disk == if fault.None? then old(disk)[t := Good(id)] else Leave(old(disk), t, id, fault.value)
      ensures ok <==> fault.None? && t !in old(mem)
    {
      RunsOne(Abs(), if fault.None? then StoreMapping(0) else StoreMappingFails(0, fault.value));
      if fault.Some? {
        disk := Leave(disk, t, id, fault.value);
        pc := Undoing(t, id, pc.handles, false);
        return false;
      }
      ok := t !in mem;
      mem, disk := mem[t := id], disk[t := Good(id)];
      pc := if ok then Idle else Undoing(t, id, pc.handles, true);
    }

    /** One rollback call. */
    method UndoNext(handles: seq<nat>, fails: bool)
      requires pc.Undoing? && pc.handles == handles && handles != []
      modifies this`objs, this`pc
      ensures Runs(old(Abs()), [Undo(0, !fails)], Abs())
      ensures pc == Undoing(old(pc.t), old(pc.id), handles[1..], old(pc.overwrote))
      ensures objs == if fails then old(objs) else old(objs) - {handles[0]}
    {
      UndoRuns(Abs(), !fails);
      if !fails { objs := objs - {handles[0]}; }
      pc := Undoing(pc.t, pc.id, handles[1..], pc.overwrote);
    }

    /** The return once all new objects have been tried. */
    method EndUndo()
      requires pc.Undoing? && pc.handles == []
      modifies this`pc
      ensures Runs(old(Abs()), [Undo(0, true)], Abs()) && pc.Idle?
    {
      RunsOne(Abs(), Undo(0, true));
      pc := Idle;
    }

    /** The rollback: destroy the one or two new objects one after the other, whatever fails. */
    method UndoKey(handles: seq<nat>, failsFirst: bool, failsSecond: bool) returns (ghost acts: seq<Action>)
      requires pc.Undoing? && pc.handles == handles && 1 <= |handles| <= 2
      modifies this`objs, this`pc
      ensures Runs(old(Abs()), acts, Abs())
      ensures pc.Idle?
      ensures objs == old(objs) - Undone(handles, failsFirst, failsSecond)
    {
      acts := [Undo(0, !failsFirst)];
      UndoNext(handles, failsFirst);
      label second:
      if |handles| == 2 {
        UndoNext(handles[1..], failsSecond);
        RunsThen(old(Abs()), acts, old@second(Abs()), [Undo(0, !failsSecond)], Abs());
        acts := acts + [Undo(0, !failsSecond)];
      }
      assert objs == old(objs) - Undone(handles, failsFirst, failsSecond);
      label last:
      EndUndo();
      RunsThen(old(Abs()), acts, old@last(Abs()), [Undo(0, true)], Abs());
      acts := acts + [Undo(0, true)];
    }

    /** The mapping of a new key, with the rollback of the key when it cannot be had. */
    method StoreOrUndo(t: KeyTriple, id: nat, handles: seq<nat>, faults: CreateFaults)
      returns (r: Result<(), ResponseStatus>, ghost acts: seq<Action>)
      requires pc == Made(t, id, handles) && 1 <= |handles| <= 2
      modifies this`mem, this`disk, this`objs, this`pc
      ensures Runs(old(Abs()), acts, Abs()) && pc.Idle?
      ensures r == if faults.store.Some? then Err(KeyInfoManagerError)
                   else if t in old(mem) then Err(PsaErrorAlreadyExists) else Ok(())
      ensures mem == if faults.store.None? then old(mem)[t := id] else old(mem)
      ensures disk == if faults.store.None? then old(disk)[t := Good(id)]
                      else Leave(old(disk), t, id, faults.store.value)
      ensures objs == if r.Ok? then old(objs) else old(objs) - Undone(handles, faults.undoFirst, faults.undoSecond)
    {
      acts := [if faults.store.None? then StoreMapping(0) else StoreMappingFails(0, faults.store.value)];
      var ok := StoreKey(t, id, faults.store);
      if ok { return Ok(()), acts; }
      label undoing:
      ghost var undone := UndoKey(handles, faults.undoFirst, faults.undoSecond);
      RunsThen(old(Abs()), acts, old@undoing(Abs()), undone, Abs());
      return Err(if faults.store.None? then PsaErrorAlreadyExists else KeyInfoManagerError), acts + undone;
    }

    /** Creation in the backend, then in the map, with the rollback. */
    method MakeAndStore(t: KeyTriple, id: nat, pair: bool, faults: CreateFaults)
      returns (r: Result<(), ResponseStatus>, ghost acts: seq<Action>)
      requires pc == Granted(t, id) && (forall h | h in objs :: h < next) && (pair ==> kind == P11)
      modifies this`mem, this`disk, this`objs, this`next, this`pc
      ensures Runs(old(Abs()), acts, Abs()) && pc.Idle?
      ensures r == if faults.backend || (kind != P11 && LiveIn(old(objs), id)) then Err(PsaErrorGenericError)
                   else if faults.store.Some? then Err(KeyInfoManagerError)
                   else if t in old(mem) then Err(PsaErrorAlreadyExists) else Ok(())
      ensures r.Ok? ==> mem == old(mem)[t := id] && disk == old(disk)[t := Good(id)]
      ensures r.Ok? ==> LiveIn(objs, id) && Gained(old(objs), objs, id, pair)
      ensures r.Err? && t !in old(mem) ==> mem == old(mem) && (faults.store.None? ==> disk == old(disk))
      ensures r.Err? && faults.UndoWorks(pair) ==> objs == old(objs)
    {
      var handles := MakeKey(id, pair, faults.backend);
      acts := [if handles.None? then Abandon(0) else Make(0, pair)];
      if handles.None? { return Err(PsaErrorGenericError), acts; }
      label storing:
      ghost var more;
      r, more := StoreOrUndo(t, id, handles.value, faults);
      AllUndone(handles.value);
      RunsThen(old(Abs()), acts, old@storing(Abs()), more, Abs());
      acts := acts + more;
    }

    /** `create_key_id`, behind the opening of a session in PKCS 11. */
    method CreateKeyId(draws: seq<nat>, sessionFails: bool)
      returns (r: Result<nat, ResponseStatus>, ghost acts: seq<Action>)
      requires pc.Checked? && (kind != P11 ==> idCounter <= PSA_KEY_ID_USER_MAX)
      requires kind == P11 ==> (forall d | d in draws :: d < TWO_TO_THE_32) && exists d | d in draws :: d !in localIds
      modifies this`idCounter, this`localIds, this`owner, this`pc
      ensures Runs(old(Abs()), acts, Abs())
      ensures pc == if r.Ok? then Granted(old(pc.t), r.value) else Idle
      ensures r.Ok? <==> if kind == P11 then !sessionFails else old(idCounter) < PSA_KEY_ID_USER_MAX
      ensures r.Ok? ==> IsNewId(kind, draws, old(localIds), localIds, old(idCounter), idCounter, r.value)
      ensures r.Err? ==> r.error == if kind == P11 then PsaErrorCommunicationFailure else PsaErrorInsufficientMemory
    {
      if kind == P11 {
        if sessionFails {
          RunsOne(Abs(), Abandon(0));
          pc := Idle;
          return Err(PsaErrorCommunicationFailure), [Abandon(0)];
        }
        var id := DrawKeyId(draws);
        return Ok(id), [DrawId(0, id)];
      }
      var taken := IncrementCounter();
      acts := [TakeId(0)];
      if taken.None? {
        label refused:
        ResetCounter();
        RunsThen(old(Abs()), acts, old@refused(Abs()), [StoreMaximum(0)], Abs());
        return Err(PsaErrorInsufficientMemory), acts + [StoreMaximum(0)];
      }
      return Ok(taken.value), acts;
    }

    /** `psa_generate_key` and `psa_import_key`: a run of the machine that is all-or-nothing. */
    method CreateKey(t: KeyTriple, pair: bool, draws: seq<nat>, faults: CreateFaults)
      returns (r: Result<(), ResponseStatus>, ghost acts: seq<Action>)
      requires pc.Idle? && Inv(Abs()) && (forall h | h in objs :: h < next) && (pair ==> kind == P11)
      requires kind == P11 ==> (forall d | d in draws :: d < TWO_TO_THE_32) && exists d | d in draws :: d !in localIds
      modifies this
      ensures Runs(old(Abs()), acts, Abs()) && pc.Idle?
      ensures r.Ok? <==> && t !in old(mem) && !faults.backend && faults.store.None?
                         && if kind == P11 then !faults.session else HasNewId(old(idCounter), old(objs))
      ensures r.Ok? ==> t in mem && mem == old(mem)[t := mem[t]] && disk == old(disk)[t := Good(mem[t])]
      ensures r.Ok? ==> LiveIn(objs, mem[t]) && Gained(old(objs), objs, mem[t], pair)
      ensures r.Ok? ==> IsNewId(kind, draws, old(localIds), localIds, old(idCounter), idCounter, mem[t])
      ensures r.Err? ==> mem == old(mem) && (faults.store.None? ==> disk == old(disk))
      ensures r.Err? && faults.UndoWorks(pair) ==> objs == old(objs)
      ensures r == Err(PsaErrorAlreadyExists) <==> t in old(mem)
      ensures r == Err(PsaErrorInsufficientMemory) <==>
              t !in old(mem) && kind != P11 && old(idCounter) == PSA_KEY_ID_USER_MAX
    {
      assert kind != P11 ==> idCounter <= PSA_KEY_ID_USER_MAX;
      var absent := CheckAbsent(t);
      acts := [StartCreate(0, t)];
      if !absent { return Err(PsaErrorAlreadyExists), acts; }
      label taking:
      var id;
      ghost var more;
      id, more := CreateKeyId(draws, faults.session);
      RunsThen(old(Abs()), acts, old@taking(Abs()), more, Abs());
      acts := acts + more;
      if id.Err? { return Err(id.error), acts; }
      label making:
      r, more := MakeAndStore(t, id.value, pair, faults);
      RunsThen(old(Abs()), acts, old@making(Abs()), more, Abs());
      acts := acts + more;
    }

    /** `get_key_id`. */
    method FetchId(t: KeyTriple) returns (id: Option<nat>)
      requires pc.Idle?
      modifies this`pc
      ensures Runs(old(Abs()), [StartDestroy(0, t)], Abs())
      ensures id == if t in mem then Some(mem[t]) else None
      ensures pc == if t in mem then Fetched(t, mem[t]) else Idle
    {
      RunsOne(Abs(), StartDestroy(0, t));
      if t in mem {
        id, pc := Some(mem[t]), Fetched(t, mem[t]);
      } else {
        id := None;
      }
    }

    /** `remove_key_info`. */
    method RemoveKey(t: KeyTriple, fails: bool) returns (ok: bool)
      requires pc.Fetched? && pc.t == t
      modifies this`mem, this`disk, this`pc
      ensures Runs(old(Abs()), [if fails then GiveUp(0) else RemoveMapping(0)], Abs())
      ensures ok <==> !fails && t in old(mem)
      ensures mem == if fails then old(mem) else old(mem) - {t}
      ensures disk == if fails then old(disk) else old(disk) - {t}
      ensures pc == if ok then Unmapped(t, old(pc.id)) else Idle
    {
      RunsOne(Abs(), if fails then GiveUp(0) else RemoveMapping(0));
      if fails {
        pc := Idle;
        return false;
      }
      ok := t in mem;
      mem, disk := mem - {t}, disk - {t};
      pc := if ok then Unmapped(t, pc.id) else Idle;
    }

    /** The backend destroy of a PSA key, which may fail after or before the key is gone. */
    method DestroyPsaKey(id: nat, gone: bool)
      requires pc.Unmapped? && pc.id == id && kind != P11
      modifies this`objs, this`pc
      ensures Runs(old(Abs()), [DestroyKey(0, gone)], Abs()) && pc.Idle?
      ensures objs == if gone then Drop(old(objs), id) else old(objs)
    {
      RunsOne(Abs(), DestroyKey(0, gone));
      if gone { objs := Drop(objs, id); }
      pc := Idle;
    }

    /** `find_key` on any object of the id. */
    method FindKey(id: nat) returns (h: Option<nat>)
      requires (pc.Unmapped? || pc.FirstGone?) && pc.id == id && kind == P11
      modifies this`pc
      ensures Runs(old(Abs()), [if h.Some? then Find(0, h.value) else FindNone(0)], Abs())
      ensures if h.Some? then h.value in objs && objs[h.value].id == id else !LiveIn(objs, id)
      ensures pc == if h.Some? then Found(old(pc.t), id, h.value, old(pc.Unmapped?)) else Idle
    {
      var found := set k | k in objs.Keys && objs[k].id == id;
      if found == {} {
        assert forall k | k in objs :: k in objs.Keys && k !in found;
        RunsOne(Abs(), FindNone(0));
        pc := Idle;
        return None;
      }
      var k :| k in found;
      RunsOne(Abs(), Find(0, k));
      pc := Found(pc.t, id, k, pc.Unmapped?);
      return Some(k);
    }

    /** `destroy_object`. */
    method DestroyFound(h: nat, fails: bool)
      requires pc.Found? && pc.h == h && h in objs && kind == P11
      modifies this`objs, this`pc
      ensures Runs(old(Abs()), [if fails then GiveUp(0) else DestroyObject(0)], Abs())
      ensures objs == if fails then old(objs) else old(objs) - {h}
      ensures pc == if !fails && old(pc.first) then FirstGone(old(pc.t), old(pc.id)) else Idle
    {
      RunsOne(Abs(), if fails then GiveUp(0) else DestroyObject(0));
      if fails {
        pc := Idle;
        return;
      }
      objs := objs - {h};
      pc := if pc.first then FirstGone(pc.t, pc.id) else Idle;
    }

    /** The second object of a PKCS 11 key, which need not exist. */
    method DestroySecond(id: nat, faults: DestroyFaults)
      returns (r: Result<(), ResponseStatus>, ghost acts: seq<Action>)
      requires pc.FirstGone? && pc.id == id && kind == P11
      modifies this`objs, this`pc
      ensures Runs(old(Abs()), acts, Abs()) && pc.Idle?
      ensures r.Ok? <==> !faults.again && (faults.second ==> !LiveIn(old(objs), id))
      ensures objs == old(objs) || exists h :: Carries(old(objs), id, h) && objs == old(objs) - {h}
      ensures r.Ok? && LiveIn(old(objs), id) ==> objs != old(objs)
    {
      if faults.again {
        RunsOne(Abs(), GiveUp(0));
        pc := Idle;
        return Err(PsaErrorCommunicationFailure), [GiveUp(0)];
      }
      var h := FindKey(id);
      acts := [if h.Some? then Find(0, h.value) else FindNone(0)];
      if h.None? { return Ok(()), acts; }
      label second:
      DestroyFound(h.value, faults.second);
      ghost var next := [if faults.second then GiveUp(0) else DestroyObject(0)];
      RunsThen(old(Abs()), acts, old@second(Abs()), next, Abs());
      acts := acts + next;
      return if faults.second then Err(PsaErrorCommunicationFailure) else Ok(()), acts;
    }

    /** The token half of a PKCS 11 destroy: one object must be found, a second one may be. */
    method DestroyObjects(id: nat, faults: DestroyFaults)
      returns (r: Result<(), ResponseStatus>, ghost acts: seq<Action>)
      requires pc.Unmapped? && pc.id == id && kind == P11
      modifies this`objs, this`pc
      ensures Runs(old(Abs()), acts, Abs()) && pc.Idle?
      ensures r.Ok? <==> LiveIn(old(objs), id) && !faults.session && !faults.first && !faults.again
                         && (faults.second ==> OneIn(old(objs), id))
      ensures Drop(objs, id) == Drop(old(objs), id)
      ensures r.Ok? ==> (objs == Drop(old(objs), id) <==> AtMostTwoIn(old(objs), id))
    {
      if faults.session {
        RunsOne(Abs(), GiveUp(0));
        pc := Idle;
        return Err(PsaErrorCommunicationFailure), [GiveUp(0)];
      }
      var h := FindKey(id);
      acts := [if h.Some? then Find(0, h.value) else FindNone(0)];
      if h.None? { return Err(PsaErrorDoesNotExist), acts; }
      label first:
      DestroyFound(h.value, faults.first);
      ghost var next := [if faults.first then GiveUp(0) else DestroyObject(0)];
      RunsThen(old(Abs()), acts, old@first(Abs()), next, Abs());
      acts := acts + next;
      if faults.first { return Err(PsaErrorCommunicationFailure), acts; }
      label again:
      r, next := DestroySecond(id, faults);
      RunsThen(old(Abs()), acts, old@again(Abs()), next, Abs());
      acts := acts + next;
      DestroyedInTurn(old(objs), id, h.value, objs);
    }

    /** The backend half of a destroy. */
    method DestroyInBackend(id: nat, faults: DestroyFaults)
      returns (r: Result<(), ResponseStatus>, ghost acts: seq<Action>)
      requires pc.Unmapped? && pc.id == id
      modifies this`objs, this`pc
      ensures Runs(old(Abs()), acts, Abs()) && pc.Idle?
      ensures r.Ok? <==> BackendDestroys(kind, old(objs), id, faults)
      ensures Drop(objs, id) == Drop(old(objs), id)
      ensures kind != P11 ==> objs == if r.Ok? then Drop(old(objs), id) else old(objs)
      ensures r.Ok? ==> (objs == Drop(old(objs), id) <==> (kind == P11 ==> AtMostTwoIn(old(objs), id)))
    {
      if kind == P11 {
        r, acts := DestroyObjects(id, faults);
      } else {
        DestroyPsaKey(id, !faults.first);
        r, acts := if faults.first then Err(PsaErrorGenericError) else Ok(()), [DestroyKey(0, !faults.first)];
      }
    }

    /** `psa_destroy_key`: the mapping goes first, whatever becomes of the key. */
    method DestroyKeyOf(t: KeyTriple, faults: DestroyFaults)
      returns (r: Result<(), ResponseStatus>, ghost acts: seq<Action>)
      requires pc.Idle?
      modifies this`mem, this`disk, this`objs, this`pc
      ensures Runs(old(Abs()), acts, Abs()) && pc.Idle?
      ensures t !in old(mem) ==> r == Err(PsaErrorDoesNotExist)
      ensures t !in old(mem) ==> mem == old(mem) && disk == old(disk) && objs == old(objs)
      ensures t in old(mem) ==> mem == if faults.store then old(mem) else old(mem) - {t}
      ensures t in old(mem) ==> disk == if faults.store then old(disk) else old(disk) - {t}
      ensures r.Ok? <==> t in old(mem) && !faults.store && BackendDestroys(kind, old(objs), old(mem)[t], faults)
      ensures t in old(mem) && (kind != P11 || faults.store) ==>
              objs == if r.Ok? then Drop(old(objs), old(mem)[t]) else old(objs)
      ensures t in old(mem) ==> Drop(objs, old(mem)[t]) == Drop(old(objs), old(mem)[t])
      ensures r.Ok? ==>
              (objs == Drop(old(objs), old(mem)[t]) <==> (kind == P11 ==> AtMostTwoIn(old(objs), old(mem)[t])))
    {
      var id := FetchId(t);
      acts := [StartDestroy(0, t)];
      if id.None? { return Err(PsaErrorDoesNotExist), acts; }
      label removing:
      var ok := RemoveKey(t, faults.store);
      ghost var next := [if faults.store then GiveUp(0) else RemoveMapping(0)];
      RunsThen(old(Abs()), acts, old@removing(Abs()), next, Abs());
      acts := acts + next;
      if !ok { return Err(KeyInfoManagerError), acts; }
      label destroying:
      r, next := DestroyInBackend(id.value, faults);
      RunsThen(old(Abs()), acts, old@destroying(Abs()), next, Abs());
      acts := acts + next;
    }
  }
}
