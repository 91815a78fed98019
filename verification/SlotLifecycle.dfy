/**
 The key lifecycle of the CryptoAuthLib provider as a step system: each call on the locked slot table, on
 the key store and on the device is one step of one thread, and device and store calls may fail.
 */
module SlotLifecycle {
  import opened Types
  import opened PsaAttributes
  import opened Opcodes
  import opened KeySlots
  import opened KeySlotStorage

  /** A request to create a key: `data` is the key to import. */
  datatype Creation = Creation(t: KeyTriple, attributes: Attributes, importing: bool, data: seq<Byte>)
  {
    function Opcode(): (r: Opcode) { if importing then PsaImportKey else PsaGenerateKey }

    /** The checks on the attributes alone. */
    predicate Admissible() {
      (importing || !attributes.keyType.IsPublicKey()) && CalibKeyType(attributes).Ok?
    }

    /** The key to import cannot be extracted; the slot has been reserved by then. */
    predicate Unreadable() { importing && RawKeyExtract(attributes.keyType, data).Err? }
  }

  /** Where a thread is. */
  datatype Pc =
    | Idle
    | Checked(c: Creation)
    | Reserved(c: Creation, k: nat)
    | Written(c: Creation, k: nat)
    | Releasing(c: Creation, k: nat)
    | Fetched(u: KeyTriple, k: nat)
    | Unmapped(u: KeyTriple, k: nat)
  {
    predicate Creating() { Checked? || Reserved? || Written? || Releasing? }

    /** The triple that the thread works on. */
    function Triple(): (r: Option<KeyTriple>) {
      if Idle? then None else if Creating() then Some(c.t) else Some(u)
    }

    /** The thread has a slot that it has reserved or still has to give back. */
    predicate HoldsSlot(k: nat) { (Reserved? || Written? || Releasing? || Unmapped?) && this.k == k }
  }

  /** `leaked` are the slots of the imports that were refused for their key; `refused` counts these imports. */
  datatype State = State(
    hw: seq<DeviceSlot>, slots: seq<KeySlot>, mem: map<KeyTriple, nat>, pcs: seq<Pc>, leaked: set<nat>, refused: nat)

  datatype Action =
    | StartCreate(i: nat, c: Creation)
    | Reserve(i: nat)
    | RefuseKey(i: nat)
    | Write(i: nat, fails: bool)
    | Store(i: nat, fails: bool)
    | Release(i: nat)
    | StartDestroy(i: nat, t: KeyTriple)
    | Remove(i: nat, fails: bool)
    | FreeSlot(i: nat)
    | Restart

  predicate ThreadEnabled(a: Action, pc: Pc) {
    match a
    case StartCreate(_, _) => pc.Idle?
    case Reserve(_) => pc.Checked?
    case RefuseKey(_) => pc.Reserved? && pc.c.Unreadable()
    case Write(_, _) => pc.Reserved? && !pc.c.Unreadable()
    case Store(_, _) => pc.Written?
    case Release(_) => pc.Releasing?
    case StartDestroy(_, _) => pc.Idle?
    case Remove(_, _) => pc.Fetched?
    case FreeSlot(_) => pc.Unmapped?
    case Restart => false
  }

  predicate Enabled(s: State, a: Action) { a.Restart? || (a.i < |s.pcs| && ThreadEnabled(a, s.pcs[a.i])) }

  /** The slot that the search reserves. */
  function Search(slots: seq<KeySlot>, a: Attributes, op: Opcode, from: nat): (r: Option<nat>)
    ensures r.Some? ==> from <= r.value && Suits(slots, r.value, a, Some(op))
    ensures forall j | from <= j < (if r.Some? then r.value else |slots|) :: !Suits(slots, j, a, Some(op))
    decreases |slots| - from
  {
    if from >= |slots| then None
    else if Suits(slots, from, a, Some(op)) then Some(from)
    else Search(slots, a, op, from + 1)
  }

  /** The search finds the slot that `find_suitable_slot` promises. */
  lemma SearchIsLeast(slots: seq<KeySlot>, a: Attributes, op: Opcode, k: nat)
    ensures Search(slots, a, op, 0) == Some(k) <==> IsLeastSuitable(slots, k, a, Some(op))
  {
  }

  function ThreadStep(s: State, a: Action, pc: Pc): (r: (State, Pc))
    requires ThreadEnabled(a, pc)
  {
    match a
    case StartCreate(_, c) => (s, if c.t in s.mem || !c.Admissible() then Idle else Checked(c))
    case Reserve(_) =>
      var k := Search(s.slots, pc.c.attributes, pc.c.Opcode(), 0);
      if k.None? then (s, Idle) else (s.(slots := WithStatus(s.slots, k.value, Busy)), Pc.Reserved(pc.c, k.value))
    case RefuseKey(_) => (s.(leaked := s.leaked + {pc.k}, refused := s.refused + 1), Idle)
    case Write(_, fails) => (s, if fails then Releasing(pc.c, pc.k) else Written(pc.c, pc.k))
    case Store(_, fails) =>
      if fails then (s, Releasing(pc.c, pc.k))
      else (s.(mem := s.mem[pc.c.t := pc.k]), if pc.c.t in s.mem then Releasing(pc.c, pc.k) else Idle)
    case Release(_) => (if pc.k < |s.slots| then s.(slots := WithStatus(s.slots, pc.k, Free)) else s, Idle)
    case StartDestroy(_, t) => (s, if t in s.mem then Fetched(t, s.mem[t]) else Idle)
    case Remove(_, fails) =>
      if fails then (s, Idle)
      else (s.(mem := s.mem - {pc.u}), if pc.u in s.mem then Unmapped(pc.u, pc.k) else Idle)
    case FreeSlot(_) => (if pc.k < |s.slots| then s.(slots := WithStatus(s.slots, pc.k, Free)) else s, Idle)
  }

  /** A restart drops every mapping and takes the slots as the device reports them. */
  function Step(s: State, a: Action): (r: State)
    requires Enabled(s, a)
  {
    if a.Restart? then Begin(s.hw, |s.pcs|)
    else
      var (s', pc) := ThreadStep(s, a, s.pcs[a.i]);
      s'.(pcs := s.pcs[a.i := pc])
  }

  /** The provider after start-up. */
  function Begin(hw: seq<DeviceSlot>, n: nat): (r: State) {
    State(hw, AtStart(hw), map[], seq(n, _ => Idle), {}, 0)
  }

  predicate Possible(s: State, acts: seq<Action>)
    decreases |acts|, 0
  {
    acts == [] || (Possible(s, acts[..|acts| - 1]) && Enabled(Exec(s, acts[..|acts| - 1]), acts[|acts| - 1]))
  }

  function Exec(s: State, acts: seq<Action>): (r: State)
    requires Possible(s, acts)
    decreases |acts|, 1
  {
    if acts == [] then s else Step(Exec(s, acts[..|acts| - 1]), acts[|acts| - 1])
  }

  /** No two operations under way are on one triple. */
  predicate Apart(s: State) {
    forall i, j | 0 <= i < j < |s.pcs| && !s.pcs[i].Idle? :: s.pcs[i].Triple() != s.pcs[j].Triple()
  }

  /** Operations on one triple never overlap in the run. */
  predicate NeverOverlaps(s: State, acts: seq<Action>)
    requires Possible(s, acts)
    decreases |acts|
  {
    Apart(Exec(s, acts)) && (acts != [] ==> NeverOverlaps(s, acts[..|acts| - 1]))
  }
}
