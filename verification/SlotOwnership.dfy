/** Who owns a busy slot: a mapping, an operation under way, or an import that was refused for its key. */
module SlotOwnership {
  import opened Types
  import opened PsaAttributes
  import opened Opcodes
  import opened KeySlots
  import opened KeySlotStorage
  import opened SlotLifecycle

  datatype Owner = Mapping(t: KeyTriple) | InFlight(i: nat) | Leak

  predicate Owns(s: State, o: Owner, k: nat) {
    match o
    case Mapping(t) => t in s.mem && s.mem[t] == k
    case InFlight(i) => i < |s.pcs| && s.pcs[i].HoldsSlot(k)
    case Leak => k in s.leaked
  }

  /** A slot is busy exactly when it is owned, and it never has two owners. */
  ghost predicate Ledger(s: State) {
    && |s.slots| == SLOTS_COUNT
    && (forall o, k: nat | Owns(s, o, k) :: k < SLOTS_COUNT && s.slots[k].status.Busy?)
    && (forall k | 0 <= k < SLOTS_COUNT && s.slots[k].status.Busy? :: exists o :: Owns(s, o, k))
    && (forall k: nat, o, o' | Owns(s, o, k) && Owns(s, o', k) :: o == o')
  }

  /** What a thread knows of the map and of its request. */
  predicate Informed(s: State, pc: Pc) {
    && (pc.Creating() || pc.Unmapped? ==> pc.Triple().value !in s.mem)
    && (pc.Creating() ==> pc.c.Admissible())
    && (pc.Fetched? ==> Owns(s, Mapping(pc.u), pc.k))
  }

  predicate AllInformed(s: State) { forall i | 0 <= i < |s.pcs| :: Informed(s, s.pcs[i]) }

  /** The configuration is the device's, and so is which slots are locked. */
  predicate Faithful(s: State) {
    && |s.slots| == SLOTS_COUNT
    && forall k | 0 <= k < SLOTS_COUNT ::
         s.slots[k] == AtStart(s.hw)[k].(status := s.slots[k].status)
         && (s.slots[k].status.Locked? <==> AtStart(s.hw)[k].status.Locked?)
  }

  ghost predicate Inv(s: State) {
    Ledger(s) && AllInformed(s) && Faithful(s) && |s.leaked| == s.refused
  }

  lemma BeginIsInv(hw: seq<DeviceSlot>, n: nat)
    ensures Inv(Begin(hw, n)) && Apart(Begin(hw, n))
  {
  }

  // ----- How ownership moves -----

  /** Slot k passes from one owner to another, where None stands for nobody. */
  ghost predicate Passes(s: State, s': State, from: Option<Owner>, to: Option<Owner>, k: nat) {
    && from != to && k < |s.slots| == |s'.slots|
    && (forall o, j: nat :: Owns(s', o, j) <==>
        if j == k then (to == Some(o) || (Owns(s, o, j) && from != Some(o))) else Owns(s, o, j))
    && (if from.Some? then Owns(s, from.value, k) else !s.slots[k].status.Busy?)
    && (forall j | 0 <= j < |s.slots| && j != k :: s'.slots[j] == s.slots[j])
    && (s'.slots[k].status.Busy? <==> to.Some?)
  }

  lemma PassingKeepsLedger(s: State, s': State, from: Option<Owner>, to: Option<Owner>, k: nat)
    requires Ledger(s) && Passes(s, s', from, to, k)
    ensures Ledger(s')
  {
    assert forall o | Owns(s', o, k) :: to == Some(o);
    forall j | 0 <= j < SLOTS_COUNT && s'.slots[j].status.Busy? ensures exists o :: Owns(s', o, j) {
      if j == k {
        assert Owns(s', to.value, k);
      } else {
        var o :| Owns(s, o, j);
        assert Owns(s', o, j);
      }
    }
  }

  /** The owners of a thread's step: whose slot it is before and after. */
  function Movement(s: State, a: Action, pc: Pc): (r: Option<(Option<Owner>, Option<Owner>, nat)>)
    requires ThreadEnabled(a, pc)
  {
    match a
    case Reserve(i) =>
      var k := Search(s.slots, pc.c.attributes, pc.c.Opcode(), 0);
      if k.Some? then Some((None, Some(InFlight(i)), k.value)) else None
    case RefuseKey(i) => Some((Some(InFlight(i)), Some(Leak), pc.k))
    case Store(i, fails) => if fails then None else Some((Some(InFlight(i)), Some(Mapping(pc.c.t)), pc.k))
    case Release(i) => Some((Some(InFlight(i)), None, pc.k))
    case Remove(i, fails) =>
      if fails || pc.u !in s.mem then None else Some((Some(Mapping(pc.u)), Some(InFlight(i)), pc.k))
    case FreeSlot(i) => Some((Some(InFlight(i)), None, pc.k))
    case _ => None
  }

  /** The two steps that spoil the books: storing over a mapping, and removing a mapping that was made anew. */
  predicate Clashes(s: State, a: Action)
    requires Enabled(s, a)
  {
    match a
    case Store(i, fails) => !fails && s.pcs[i].c.t in s.mem
    case Remove(i, fails) => !fails && s.pcs[i].u in s.mem && s.mem[s.pcs[i].u] != s.pcs[i].k
    case _ => false
  }

  /** A step without movement changes no owner and no slot. */
  lemma StillStep(s: State, a: Action)
    requires Ledger(s) && !a.Restart? && Enabled(s, a) && Movement(s, a, s.pcs[a.i]).None?
    ensures Ledger(Step(s, a))
  {
    var s' := Step(s, a);
    assert a.Remove? && !a.fails ==> s'.mem == s.mem;
    assert s'.slots == s.slots && s'.mem == s.mem && s'.leaked == s.leaked;
    assert forall o, k: nat :: Owns(s', o, k) <==> Owns(s, o, k);
  }

  lemma MovingStep(s: State, a: Action)
    requires Ledger(s) && !a.Restart? && Enabled(s, a) && Movement(s, a, s.pcs[a.i]).Some? && !Clashes(s, a)
    ensures var (from, to, k) := Movement(s, a, s.pcs[a.i]).value; Passes(s, Step(s, a), from, to, k)
  {
    var pc := s.pcs[a.i];
    assert !a.Reserve? && !a.Remove? ==> Owns(s, InFlight(a.i), pc.k);
    if a.Remove? {
      assert Owns(s, Mapping(pc.u), pc.k);
    }
  }

  lemma StepKeepsLedger(s: State, a: Action)
    requires Ledger(s) && Enabled(s, a) && !Clashes(s, a)
    ensures Ledger(Step(s, a))
  {
    if a.Restart? {
      BeginIsInv(s.hw, |s.pcs|);
    } else if Movement(s, a, s.pcs[a.i]).None? {
      StillStep(s, a);
    } else {
      MovingStep(s, a);
      var (from, to, k) := Movement(s, a, s.pcs[a.i]).value;
      PassingKeepsLedger(s, Step(s, a), from, to, k);
    }
  }

  lemma ClashBreaksLedger(s: State, a: Action)
    requires Ledger(s) && Enabled(s, a) && Clashes(s, a)
    ensures !Ledger(Step(s, a))
  {
    var s', pc := Step(s, a), s.pcs[a.i];
    if a.Store? {
      assert Owns(s', Mapping(pc.c.t), pc.k) && Owns(s', InFlight(a.i), pc.k);
    } else {
      var k := s.mem[pc.u];
      assert Owns(s, Mapping(pc.u), k);
      forall o ensures !Owns(s', o, k) {
        assert Owns(s', o, k) ==> Owns(s, o, k);
      }
    }
  }

  /** Whatever overlaps, a step keeps the books if and only if it is none of the two clashes. */
  lemma ClashesAreTheFlaw(s: State, a: Action)
    requires Ledger(s) && Enabled(s, a)
    ensures Ledger(Step(s, a)) <==> !Clashes(s, a)
  {
    if Clashes(s, a) {
      ClashBreaksLedger(s, a);
    } else {
      StepKeepsLedger(s, a);
    }
  }

  /** What the thread that takes the step knows afterwards. */
  lemma ActorStaysInformed(s: State, a: Action)
    requires Enabled(s, a) && !a.Restart? && Informed(s, s.pcs[a.i])
    ensures Informed(Step(s, a), Step(s, a).pcs[a.i])
  {
  }

  /** What a thread on another triple knows afterwards. */
  lemma OthersStayInformed(s: State, a: Action, pc: Pc)
    requires Enabled(s, a) && !a.Restart? && Informed(s, pc)
    requires pc.Idle? || pc.Triple() != s.pcs[a.i].Triple()
    ensures Informed(Step(s, a), pc)
  {
  }

  lemma StepKeepsInformed(s: State, a: Action)
    requires Inv(s) && Apart(s) && Enabled(s, a)
    ensures AllInformed(Step(s, a))
  {
    if !a.Restart? {
      var s' := Step(s, a);
      forall j | 0 <= j < |s'.pcs| ensures Informed(s', s'.pcs[j]) {
        assert Informed(s, s.pcs[j]);
        if j == a.i {
          ActorStaysInformed(s, a);
        } else {
          OthersStayInformed(s, a, s.pcs[j]);
        }
      }
    }
  }

  lemma StepKeepsFaithful(s: State, a: Action)
    requires Inv(s) && Enabled(s, a)
    ensures Faithful(Step(s, a)) && Step(s, a).hw == s.hw
  {
  }

  lemma StepKeepsCount(s: State, a: Action)
    requires Inv(s) && Enabled(s, a)
    ensures |Step(s, a).leaked| == Step(s, a).refused
  {
    if a.RefuseKey? {
      var pc := s.pcs[a.i];
      assert Owns(s, InFlight(a.i), pc.k);
      assert !Owns(s, Leak, pc.k);
    }
  }

  lemma StepKeepsInv(s: State, a: Action)
    requires Inv(s) && Apart(s) && Enabled(s, a)
    ensures Inv(Step(s, a)) && Step(s, a).hw == s.hw
  {
    assert !a.Restart? ==> Informed(s, s.pcs[a.i]);
    StepKeepsLedger(s, a);
    StepKeepsInformed(s, a);
    StepKeepsFaithful(s, a);
    StepKeepsCount(s, a);
  }

  /** Every run without overlap keeps the books. */
  lemma {:induction false} RunKeepsInv(s: State, acts: seq<Action>)
    requires Inv(s) && Possible(s, acts) && NeverOverlaps(s, acts)
    ensures Inv(Exec(s, acts)) && Exec(s, acts).hw == s.hw
  {
    if acts == [] {
      assert Exec(s, acts) == s;
    } else {
      RunKeepsInv(s, acts[..|acts| - 1]);
      StepKeepsInv(Exec(s, acts[..|acts| - 1]), acts[|acts| - 1]);
    }
  }

  /** The slot has the configuration that the device reports and is locked when it says so; nobody owns it then. */
  ghost predicate ShowsReport(s: State, d: DeviceSlot) {
    && d.id < |s.slots| && s.slots[d.id].config == d.config && s.slots[d.id].refCount == 0
    && (s.slots[d.id].status.Locked? <==> d.locked)
    && (d.locked ==> forall o :: !Owns(s, o, d.id))
  }

  /**
   In every run in which operations on one triple do not overlap, whatever device and store calls fail:
   each busy slot has exactly one owner, no mapping points at a free or locked slot, the leaked slots are
   as many as the imports refused for their key, and the locked slots are those that the device reports, which
   no mapping points at and no operation has reserved.
   */
  lemma BusySlotsHaveOneOwner(hw: seq<DeviceSlot>, n: nat, acts: seq<Action>)
    requires Possible(Begin(hw, n), acts) && NeverOverlaps(Begin(hw, n), acts)
    ensures var s := Exec(Begin(hw, n), acts);
            && |s.slots| == SLOTS_COUNT
            && (forall k | 0 <= k < SLOTS_COUNT :: s.slots[k].status.Busy? <==> exists o :: Owns(s, o, k))
            && (forall k: nat, o, o' | Owns(s, o, k) && Owns(s, o', k) :: o == o')
            && (forall t | t in s.mem :: s.mem[t] < SLOTS_COUNT && s.slots[s.mem[t]].status.Busy?)
            && |s.leaked| == s.refused
            && (forall m: nat | IsLast(hw, m) :: ShowsReport(s, hw[m]))
  {
    BeginIsInv(hw, n);
    RunKeepsInv(Begin(hw, n), acts);
    var s := Exec(Begin(hw, n), acts);
    forall t | t in s.mem ensures s.mem[t] < SLOTS_COUNT && s.slots[s.mem[t]].status.Busy? {
      assert Owns(s, Mapping(t), s.mem[t]);
    }
    forall m: nat | IsLast(hw, m) ensures ShowsReport(s, hw[m]) {
      LastEntryCounts(DefaultSlots(), hw, m);
    }
  }

  /** The import of a public key that is not 65 bytes long. */
  predicate ImportsWrongLength(c: Creation) { c.importing && c.attributes.keyType.EccPublicKey? && |c.data| != 65 }

  /** The slot is nobody's but the leak's. */
  predicate Lost(s: State, k: nat) { k < |s.slots| && s.slots[k].status.Busy? && k in s.leaked }

  /**
   Whatever a creation that has reserved a slot does next: if it imports a public key of the wrong length, it
   ends there and its slot is lost; if not, no slot is lost.
   */
  lemma NextStepLeaks(s: State, a: Action)
    requires Inv(s) && Enabled(s, a) && !a.Restart? && s.pcs[a.i].Reserved?
    ensures var pc, s' := s.pcs[a.i], Step(s, a);
            if ImportsWrongLength(pc.c) then Lost(s', pc.k) && s'.pcs[a.i].Idle? && s'.mem == s.mem
            else s'.leaked == s.leaked
  {
    var pc := s.pcs[a.i];
    assert Informed(s, pc) && Owns(s, InFlight(a.i), pc.k);
    OnlyPublicKeysAreRefused(pc.c.attributes, pc.c.data);
  }

  lemma StepKeepsLost(s: State, a: Action, k: nat)
    requires Enabled(s, a) && !a.Restart? && Lost(s, k) && Inv(Step(s, a))
    ensures Lost(Step(s, a), k)
  {
    assert s.leaked <= Step(s, a).leaked;
    assert Owns(Step(s, a), Leak, k);
  }

  /** A lost slot stays lost until the next restart. */
  lemma {:induction false} LostUntilRestart(s: State, acts: seq<Action>, k: nat)
    requires Inv(s) && Lost(s, k) && Possible(s, acts) && NeverOverlaps(s, acts) && forall a | a in acts :: !a.Restart?
    ensures Lost(Exec(s, acts), k)
  {
    if acts == [] {
      assert Exec(s, acts) == s;
    } else {
      var before, a := acts[..|acts| - 1], acts[|acts| - 1];
      assert a in acts && forall b | b in before :: b in acts;
      LostUntilRestart(s, before, k);
      RunKeepsInv(s, before);
      RunKeepsInv(s, acts);
      StepKeepsLost(Exec(s, before), a, k);
    }
  }

  /**
   In every run without overlap, a creation that has reserved a slot and takes its next step loses the slot if
   and only if it imports a public key that is not 65 bytes long; the slot is then busy in every continuation
   up to the next restart, and after that restart no slot is.
   */
  lemma OnlyRefusedImportsLeak(hw: seq<DeviceSlot>, n: nat, acts: seq<Action>, a: Action, more: seq<Action>)
    requires Possible(Begin(hw, n), acts) && NeverOverlaps(Begin(hw, n), acts)
    requires Enabled(Exec(Begin(hw, n), acts), a) && !a.Restart? && Exec(Begin(hw, n), acts).pcs[a.i].Reserved?
    requires Possible(Step(Exec(Begin(hw, n), acts), a), more) && NeverOverlaps(Step(Exec(Begin(hw, n), acts), a), more)
    requires forall b | b in more :: !b.Restart?
    ensures var s := Exec(Begin(hw, n), acts);
            var r := Exec(Step(s, a), more);
            && (ImportsWrongLength(s.pcs[a.i].c) ==> Lost(r, s.pcs[a.i].k))
            && (!ImportsWrongLength(s.pcs[a.i].c) ==> Step(s, a).leaked == s.leaked)
            && forall k | 0 <= k < SLOTS_COUNT :: !Step(r, Restart).slots[k].status.Busy?
  {
    BeginIsInv(hw, n);
    RunKeepsInv(Begin(hw, n), acts);
    var s := Exec(Begin(hw, n), acts);
    LostInContinuation(s, a, more);
  }

  lemma LostInContinuation(s: State, a: Action, more: seq<Action>)
    requires Inv(s) && Apart(s) && Enabled(s, a) && !a.Restart? && s.pcs[a.i].Reserved?
    requires Possible(Step(s, a), more) && NeverOverlaps(Step(s, a), more) && forall b | b in more :: !b.Restart?
    ensures if ImportsWrongLength(s.pcs[a.i].c) then Lost(Exec(Step(s, a), more), s.pcs[a.i].k)
            else Step(s, a).leaked == s.leaked
  {
    NextStepLeaks(s, a);
    StepKeepsInv(s, a);
    if ImportsWrongLength(s.pcs[a.i].c) {
      LostUntilRestart(Step(s, a), more, s.pcs[a.i].k);
    }
  }
}
