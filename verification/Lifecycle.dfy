/**
 The key lifecycle of the Mbed Crypto, Trusted Service and PKCS 11 providers as a step system. Each call
 under a lock, each atomic operation and each backend call is one step of one thread; every backend and
 store call may fail; the process may stop between any two steps and start again.
 */
module Lifecycle {
  import opened Types
  import opened IdAllocator

  datatype Kind = Mbed | Ts | P11

  /** A PSA key is one object; a PKCS 11 key is a public object, or a public and a private one. */
  datatype Part = Whole | Public | Private

  datatype Object = Object(id: nat, part: Part)

  /** What the mapping file of a triple holds. */
  datatype File = Good(id: nat) | Torn

  /** What a failed insert leaves in place of the mapping file. */
  datatype Leftover = Untouched | Missing | Partial | Complete

  /** How a provider finds an id for a new key. */
  datatype Allocator = ByCounter(counter: Counter) | ByDraw(localIds: set<nat>)

  /** Where a thread is. `t` is the triple it works on, `id` the key id it holds. */
  datatype Pc =
    | Idle
    | Checked(t: KeyTriple)
    | Refused(t: KeyTriple)
    | Granted(t: KeyTriple, id: nat)
    | Made(t: KeyTriple, id: nat, handles: seq<nat>)
    | Undoing(t: KeyTriple, id: nat, handles: seq<nat>, overwrote: bool)
    | Fetched(t: KeyTriple, id: nat)
    | Unmapped(t: KeyTriple, id: nat)
    | Found(t: KeyTriple, id: nat, h: nat, first: bool)
    | FirstGone(t: KeyTriple, id: nat)
    | Using(t: KeyTriple, id: nat)

  predicate HasId(pc: Pc) { !pc.Idle? && !pc.Checked? && !pc.Refused? }

  /** A creation is under way, from its existence check until it returns. */
  predicate Creating(pc: Pc) { pc.Checked? || pc.Refused? || pc.Granted? || pc.Made? || pc.Undoing? }

  /** The id has been issued and not been stored in a mapping. */
  predicate Fresh(pc: Pc) { pc.Granted? || pc.Made? }

  /** The thread may destroy the objects of its id. */
  predicate Destroying(pc: Pc) { pc.Undoing? || pc.Unmapped? || pc.Found? || pc.FirstGone? }

  /** `owner` records for which triple an id was issued or kept, since the last start. */
  datatype State = State(
    kind: Kind, up: bool,
    mem: map<KeyTriple, nat>, disk: map<KeyTriple, File>,
    objs: map<nat, Object>, next: nat,
    alloc: Allocator, owner: map<nat, KeyTriple>,
    pcs: seq<Pc>, lock: Option<nat>)

  predicate Live(s: State, id: nat) { exists h | h in s.objs :: s.objs[h].id == id }

  predicate Maps(s: State, t: KeyTriple, id: nat) { t in s.mem && s.mem[t] == id }

  datatype Action =
    | StartCreate(i: nat, t: KeyTriple)
    | TakeId(i: nat)
    | StoreMaximum(i: nat)
    | DrawId(i: nat, id: nat)
    | Abandon(i: nat)
    | Make(i: nat, pair: bool)
    | StoreMapping(i: nat)
    | StoreMappingFails(i: nat, left: Leftover)
    | Undo(i: nat, gone: bool)
    | StartDestroy(i: nat, t: KeyTriple)
    | RemoveMapping(i: nat)
    | DestroyKey(i: nat, gone: bool)
    | Find(i: nat, h: nat)
    | FindNone(i: nat)
    | DestroyObject(i: nat)
    | GiveUp(i: nat)
    | StartUse(i: nat, t: KeyTriple)
    | Use(i: nat)
    | Crash
    | StartUpFails(removed: set<KeyTriple>)
    | Restart(top: nat)

  /** The guard of the key handle mutex of Mbed Crypto: no other thread holds it. */
  predicate Unlocked(s: State) { s.kind == Mbed ==> s.lock == None }

  predicate ThreadEnabled(s: State, a: Action, pc: Pc) {
    match a
    case StartCreate(_, _) => pc.Idle?
    case TakeId(_) => pc.Checked? && s.alloc.ByCounter?
    case StoreMaximum(_) => pc.Refused? && s.alloc.ByCounter?
    case DrawId(_, id) => pc.Checked? && s.alloc.ByDraw? && id !in s.alloc.localIds && id < TWO_TO_THE_32
    case Abandon(_) => (pc.Checked? && s.kind == P11) || (pc.Granted? && Unlocked(s))
    case Make(_, pair) => pc.Granted? && Unlocked(s) && (pair ==> s.kind == P11) && (s.kind != P11 ==> !Live(s, pc.id))
    case StoreMapping(_) => pc.Made?
    case StoreMappingFails(_, _) => pc.Made?
    case Undo(_, _) => pc.Undoing?
    case StartDestroy(_, _) => pc.Idle?
    case RemoveMapping(_) => pc.Fetched?
    case DestroyKey(_, _) => pc.Unmapped? && s.kind != P11 && Unlocked(s)
    case Find(_, h) => (pc.Unmapped? || pc.FirstGone?) && s.kind == P11 && h in s.objs && s.objs[h].id == pc.id
    case FindNone(_) => (pc.Unmapped? || pc.FirstGone?) && s.kind == P11 && !Live(s, pc.id)
    case DestroyObject(_) => pc.Found? && pc.h in s.objs
    case GiveUp(_) => pc.Fetched? || pc.Using? || (s.kind == P11 && (pc.Unmapped? || pc.FirstGone? || pc.Found?))
    case StartUse(_, _) => pc.Idle?
    case Use(_) => pc.Using? && Unlocked(s)
    case _ => false
  }

  /** The reload finds the file of a triple: that of the empty application name lies one level too high. */
  predicate IsListed(t: KeyTriple) { t.app != [] }

  /** The mappings that start-up keeps: listed, readable, and with a live key unless nothing asks the backend. */
  function Kept(s: State): (m: map<KeyTriple, nat>) {
    map t | t in s.disk && IsListed(t) && s.disk[t].Good? && (s.kind == Ts || Live(s, s.disk[t].id)) :: s.disk[t].id
  }

  /** The highest id of a map, and at least the lowest id that users may have. */
  predicate IsTop(m: map<KeyTriple, nat>, top: nat) {
    && top >= PSA_KEY_ID_USER_MIN
    && (forall t | t in m :: m[t] <= top)
    && (top == PSA_KEY_ID_USER_MIN || exists t | t in m :: m[t] == top)
  }

  predicate Enabled(s: State, a: Action) {
    match a
    case Crash => s.up
    case StartUpFails(removed) => !s.up && removed !! Kept(s).Keys && forall t | t in removed :: IsListed(t)
    case Restart(top) => !s.up && (forall t | t in s.disk && IsListed(t) :: s.disk[t].Good?) && IsTop(Kept(s), top)
    case _ => s.up && a.i < |s.pcs| && ThreadEnabled(s, a, s.pcs[a.i])
  }

  function Drop(objs: map<nat, Object>, id: nat): (r: map<nat, Object>) {
    map h | h in objs && objs[h].id != id :: objs[h]
  }

  function Leave(disk: map<KeyTriple, File>, t: KeyTriple, id: nat, left: Leftover): (r: map<KeyTriple, File>) {
    match left
    case Untouched => disk
    case Missing => disk - {t}
    case Partial => disk[t := Torn]
    case Complete => disk[t := Good(id)]
  }

  /** The step of a thread; the new state but for the thread's own position, and that position. */
  function ThreadStep(s: State, a: Action, pc: Pc): (r: (State, Pc))
    requires ThreadEnabled(s, a, pc)
  {
    match a
    case StartCreate(_, t) => (s, if t in s.mem then Idle else Checked(t))
    case TakeId(i) =>
      var (c, id) := FetchAdd(s.alloc.counter, i);
      if id.None? then (s.(alloc := ByCounter(c)), Refused(pc.t))
      else (s.(alloc := ByCounter(c), owner := s.owner[id.value := pc.t]), Granted(pc.t, id.value))
    case StoreMaximum(i) => (s.(alloc := ByCounter(StoreMax(s.alloc.counter, i))), Idle)
    case DrawId(_, id) =>
      (s.(alloc := ByDraw(s.alloc.localIds + {id}), owner := s.owner[id := pc.t]), Granted(pc.t, id))
    case Abandon(_) => (s, Idle)
    case Make(i, pair) =>
      var part := if s.kind == P11 then Public else Whole;
      var lock := if s.kind == Mbed then Some(i) else s.lock;
      if pair then
        (s.(objs := s.objs[s.next := Object(pc.id, part)][s.next + 1 := Object(pc.id, Private)],
            next := s.next + 2, lock := lock),
         Made(pc.t, pc.id, [s.next, s.next + 1]))
      else
        (s.(objs := s.objs[s.next := Object(pc.id, part)], next := s.next + 1, lock := lock),
         Made(pc.t, pc.id, [s.next]))
    case StoreMapping(_) =>
      var s' := s.(mem := s.mem[pc.t := pc.id], disk := s.disk[pc.t := Good(pc.id)]);
      if pc.t in s.mem then (s', Undoing(pc.t, pc.id, pc.handles, true)) else (s'.(lock := None), Idle)
    case StoreMappingFails(_, left) =>
      (s.(disk := Leave(s.disk, pc.t, pc.id, left)), Undoing(pc.t, pc.id, pc.handles, false))
    case Undo(_, gone) =>
      if pc.handles == [] then (s.(lock := None), Idle)
      else (if gone then s.(objs := s.objs - {pc.handles[0]}) else s, pc.(handles := pc.handles[1..]))
    case StartDestroy(_, t) => (s, if t in s.mem then Fetched(t, s.mem[t]) else Idle)
    case RemoveMapping(_) =>
      (s.(mem := s.mem - {pc.t}, disk := s.disk - {pc.t}), if pc.t in s.mem then Unmapped(pc.t, pc.id) else Idle)
    case DestroyKey(_, gone) => (if gone then s.(objs := Drop(s.objs, pc.id)) else s, Idle)
    case Find(_, h) => (s, Found(pc.t, pc.id, h, pc.Unmapped?))
    case FindNone(_) => (s, Idle)
    case DestroyObject(_) => (s.(objs := s.objs - {pc.h}), if pc.first then FirstGone(pc.t, pc.id) else Idle)
    case GiveUp(_) => (s, Idle)
    case StartUse(_, t) => (s, if t in s.mem then Using(t, s.mem[t]) else Idle)
    case Use(_) => (s, Idle)
  }

  function Step(s: State, a: Action): (r: State)
    requires Enabled(s, a)
  {
    match a
    case Crash => s.(up := false, mem := map[], pcs := seq(|s.pcs|, _ => Idle), lock := None)
    case StartUpFails(removed) => s.(disk := s.disk - removed)
    case Restart(top) =>
      var kept := Kept(s);
      s.(up := true, mem := kept, disk := map t | t in s.disk && (t in kept || !IsListed(t)) :: s.disk[t],
         alloc := if s.kind == P11 then ByDraw(kept.Values) else ByCounter(Counter(top, {})),
         owner := map id | id in s.owner && s.owner[id] in kept && kept[s.owner[id]] == id :: s.owner[id])
    case _ =>
      var (s', pc) := ThreadStep(s, a, s.pcs[a.i]);
      s'.(pcs := s.pcs[a.i := pc])
  }

  // ----- Runs -----

  /** A service that has never been started, with no mapping on disk and any objects in the backend. */
  predicate Initial(s: State) {
    !s.up && s.mem == map[] && s.disk == map[] && s.owner == map[] && s.lock == None && Fits(|s.pcs|)
    && (forall i | 0 <= i < |s.pcs| :: s.pcs[i].Idle?) && (forall h | h in s.objs :: h < s.next)
  }

  /** The runs: each action is enabled where it is taken. */
  predicate Possible(s: State, acts: seq<Action>)
    decreases |acts|, 0
  {
    acts == [] || (Possible(s, acts[..|acts| - 1]) && Enabled(Exec(s, acts[..|acts| - 1]), acts[|acts| - 1]))
  }

  function Exec(s: State, acts: seq<Action>): (r: State)
    requires Possible(s, acts)
    decreases |acts|, 1
  {
    if acts == [] then s else Step(Exec(s, acts[..|acts| - 1]), acts[|acts| - 1])
  }
}
