/** Two overlapping creations of one triple, on any device with two free slots that suit the key. */
module SlotOverlap {
  import opened Types
  import opened PsaAttributes
  import opened Opcodes
  import opened KeySlots
  import opened KeySlotStorage
  import opened SlotLifecycle
  import opened SlotOwnership

  /** The slots that two searches in a row reserve. */
  predicate TwoSuit(hw: seq<DeviceSlot>, c: Creation, k0: nat, k1: nat) {
    && !c.importing && c.Admissible()
    && Search(AtStart(hw), c.attributes, PsaGenerateKey, 0) == Some(k0)
    && Search(WithStatus(AtStart(hw), k0, Busy), c.attributes, PsaGenerateKey, 0) == Some(k1)
  }

  function OverlapAction(n: nat, c: Creation): (a: Action) {
    if n == 0 then StartCreate(0, c)
    else if n == 1 then StartCreate(1, c)
    else if n == 2 then Reserve(0)
    else if n == 3 then Reserve(1)
    else if n == 4 then Write(0, false)
    else if n == 5 then Write(1, false)
    else if n == 6 then Store(0, false)
    else if n == 7 then Store(1, false)
    else Release(1)
  }

  function Slots(n: nat, hw: seq<DeviceSlot>, k0: nat, k1: nat): (r: seq<KeySlot>)
    requires k0 < SLOTS_COUNT && k1 < SLOTS_COUNT
  {
    var one := WithStatus(AtStart(hw), k0, Busy);
    var two := WithStatus(one, k1, Busy);
    if n < 3 then AtStart(hw) else if n == 3 then one else if n < 9 then two else WithStatus(two, k1, Free)
  }

  function OverlapState(n: nat, hw: seq<DeviceSlot>, c: Creation, k0: nat, k1: nat): (s: State)
    requires k0 < SLOTS_COUNT && k1 < SLOTS_COUNT
  {
    State(hw, Slots(n, hw, k0, k1),
          if n < 7 then map[] else if n == 7 then map[c.t := k0] else map[c.t := k1],
          [if n == 1 || n == 2 then Checked(c) else if n == 3 || n == 4 then Pc.Reserved(c, k0)
           else if n == 5 || n == 6 then Written(c, k0) else Idle,
           if n == 2 || n == 3 then Checked(c) else if n == 4 || n == 5 then Pc.Reserved(c, k1)
           else if n == 6 || n == 7 then Written(c, k1) else if n == 8 then Releasing(c, k1) else Idle],
          {}, 0)
  }

  lemma ReserveStep(n: nat, hw: seq<DeviceSlot>, c: Creation, k0: nat, k1: nat)
    requires n < 4 && TwoSuit(hw, c, k0, k1)
    ensures Enabled(OverlapState(n, hw, c, k0, k1), OverlapAction(n, c))
    ensures Step(OverlapState(n, hw, c, k0, k1), OverlapAction(n, c)) == OverlapState(n + 1, hw, c, k0, k1)
  {
    var s, e := Step(OverlapState(n, hw, c, k0, k1), OverlapAction(n, c)), OverlapState(n + 1, hw, c, k0, k1);
    assert s.pcs[0] == e.pcs[0] && s.pcs[1] == e.pcs[1];
    assert s.pcs == e.pcs && s.mem == e.mem;
  }

  lemma StoreStep(n: nat, hw: seq<DeviceSlot>, c: Creation, k0: nat, k1: nat)
    requires 4 <= n < 9 && TwoSuit(hw, c, k0, k1)
    ensures Enabled(OverlapState(n, hw, c, k0, k1), OverlapAction(n, c))
    ensures Step(OverlapState(n, hw, c, k0, k1), OverlapAction(n, c)) == OverlapState(n + 1, hw, c, k0, k1)
  {
    var s, e := Step(OverlapState(n, hw, c, k0, k1), OverlapAction(n, c)), OverlapState(n + 1, hw, c, k0, k1);
    assert s.pcs[0] == e.pcs[0] && s.pcs[1] == e.pcs[1];
    assert s.pcs == e.pcs && s.mem == e.mem;
  }

  lemma OverlapStep(n: nat, hw: seq<DeviceSlot>, c: Creation, k0: nat, k1: nat)
    requires n < 9 && TwoSuit(hw, c, k0, k1)
    ensures Enabled(OverlapState(n, hw, c, k0, k1), OverlapAction(n, c))
    ensures Step(OverlapState(n, hw, c, k0, k1), OverlapAction(n, c)) == OverlapState(n + 1, hw, c, k0, k1)
  {
    if n < 4 {
      ReserveStep(n, hw, c, k0, k1);
    } else {
      StoreStep(n, hw, c, k0, k1);
    }
  }

  /** The actions of the run up to a step. */
  function OverlapRun(n: nat, c: Creation): (acts: seq<Action>) {
    if n == 0 then [] else OverlapRun(n - 1, c) + [OverlapAction(n - 1, c)]
  }

  lemma {:induction false} OverlapReaches(n: nat, hw: seq<DeviceSlot>, c: Creation, k0: nat, k1: nat)
    requires n <= 9 && TwoSuit(hw, c, k0, k1)
    ensures Possible(Begin(hw, 2), OverlapRun(n, c))
    ensures Exec(Begin(hw, 2), OverlapRun(n, c)) == OverlapState(n, hw, c, k0, k1)
  {
    if n == 0 {
      assert Begin(hw, 2).pcs == OverlapState(0, hw, c, k0, k1).pcs;
    } else {
      OverlapReaches(n - 1, hw, c, k0, k1);
      OverlapStep(n - 1, hw, c, k0, k1);
      var acts := OverlapRun(n, c);
      assert acts[..|acts| - 1] == OverlapRun(n - 1, c);
    }
  }

  /** The hypothesis is needed: the mapping ends at a free slot, and a busy slot has no owner. */
  lemma OverlapBreaksTheLedger(hw: seq<DeviceSlot>, c: Creation, k0: nat, k1: nat)
    requires TwoSuit(hw, c, k0, k1)
    ensures Possible(Begin(hw, 2), OverlapRun(9, c))
    ensures var s := Exec(Begin(hw, 2), OverlapRun(9, c));
            && c.t in s.mem && s.mem[c.t] < |s.slots| && s.slots[s.mem[c.t]].status.Free?
            && k0 < |s.slots| && s.slots[k0].status.Busy? && forall o :: !Owns(s, o, k0)
  {
    OverlapReaches(9, hw, c, k0, k1);
    EndIsBroken(hw, c, k0, k1);
  }

  lemma EndIsBroken(hw: seq<DeviceSlot>, c: Creation, k0: nat, k1: nat)
    requires TwoSuit(hw, c, k0, k1)
    ensures var s := OverlapState(9, hw, c, k0, k1);
            && c.t in s.mem && s.mem[c.t] < |s.slots| && s.slots[s.mem[c.t]].status.Free?
            && k0 < |s.slots| && s.slots[k0].status.Busy? && forall o :: !Owns(s, o, k0)
  {
    assert k0 != k1;
  }

  const AES_SLOT := SlotConfig(Encrypted, AesKey, false, false, false, false, false)

  /** A device with two slots for AES keys is one on which two creations can meet. */
  lemma TwoAesSlots(t: KeyTriple)
    ensures exists hw, c: Creation :: c.t == t && TwoSuit(hw, c, 0, 1)
  {
    var usage := UsageFlags(false, false, false, false, false, false, false, false, false, false);
    var c := Creation(t, PsaAttributes.Attributes(Aes, 128, usage, CipherAlg(Ctr)), false, []);
    var hw := [DeviceSlot(0, false, AES_SLOT), DeviceSlot(1, false, AES_SLOT)];
    LastEntryCounts(DefaultSlots(), hw, 0);
    LastEntryCounts(DefaultSlots(), hw, 1);
    assert Suits(AtStart(hw), 0, c.attributes, Some(PsaGenerateKey));
    var one := WithStatus(AtStart(hw), 0, Busy);
    assert Suits(one, 1, c.attributes, Some(PsaGenerateKey));
    assert TwoSuit(hw, c, 0, 1);
  }
}
