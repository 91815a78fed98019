/** The slot table: slots are handed out, given back and configured in place. */
module KeySlotStorage {
  import opened Types
  import opened PsaAttributes
  import opened Opcodes
  import opened KeySlots

  /** What the device reports of a slot. */
  datatype DeviceSlot = DeviceSlot(id: nat, locked: bool, config: SlotConfig)
  {
    predicate IsValid() { id < SLOTS_COUNT }

    function Fresh(): (s: KeySlot) { KeySlot(0, if locked then Locked else Free, config) }
  }

  const DEFAULT_SLOT := KeySlot(0, Free, SlotConfig(Reserved, OtherKey, false, false, false, false, false))

  function DefaultSlots(): (r: seq<KeySlot>) { seq(SLOTS_COUNT, _ => DEFAULT_SLOT) }

  /** A free slot that can hold the key. */
  predicate Suits(slots: seq<KeySlot>, k: nat, a: Attributes, op: Option<Opcode>) {
    k < |slots| && slots[k].status.Free? && Compatible(slots[k].config, k, a, op)
  }

  predicate IsLeastSuitable(slots: seq<KeySlot>, k: nat, a: Attributes, op: Option<Opcode>) {
    Suits(slots, k, a, op) && forall j: nat | j < k :: !Suits(slots, j, a, op)
  }

  function WithStatus(slots: seq<KeySlot>, k: nat, status: SlotStatus): (r: seq<KeySlot>)
    requires k < |slots|
  {
    slots[k := SetStatus(slots[k], status).0]
  }

  /** The table after the device's report: the last valid entry for a slot counts. */
  function Configured(slots: seq<KeySlot>, hw: seq<DeviceSlot>): (r: seq<KeySlot>)
    requires |slots| == SLOTS_COUNT
    ensures |r| == SLOTS_COUNT
    ensures forall k | 0 <= k < SLOTS_COUNT :: r[k] == slots[k] || !r[k].status.Busy?
  {
    if hw == [] then slots
    else
      var before, d := Configured(slots, hw[..|hw| - 1]), hw[|hw| - 1];
      if d.IsValid() then before[d.id := d.Fresh()] else before
  }

  /** The table once all slots have been configured: none is busy. */
  function AtStart(hw: seq<DeviceSlot>): (r: seq<KeySlot>)
    ensures |r| == SLOTS_COUNT && forall k | 0 <= k < SLOTS_COUNT :: !r[k].status.Busy?
  {
    Configured(DefaultSlots(), hw)
  }

  /** The last entry of the report for a slot that there is. */
  predicate IsLast(hw: seq<DeviceSlot>, n: nat) {
    n < |hw| && hw[n].id < SLOTS_COUNT && forall m | n < m < |hw| :: hw[m].id != hw[n].id
  }

  /** What the last entry says of a slot is what the table holds: locked or free, with its configuration, and unused. */
  lemma {:induction false} LastEntryCounts(slots: seq<KeySlot>, hw: seq<DeviceSlot>, n: nat)
    requires |slots| == SLOTS_COUNT && IsLast(hw, n)
    ensures Configured(slots, hw)[hw[n].id] == KeySlot(0, if hw[n].locked then Locked else Free, hw[n].config)
  {
    if n == |hw| - 1 {
    } else {
      LastEntryCounts(slots, hw[..|hw| - 1], n);
    }
  }

  /** A slot without an entry stays as it was. */
  lemma {:induction false} UnreportedSlotStays(slots: seq<KeySlot>, hw: seq<DeviceSlot>, k: nat)
    requires |slots| == SLOTS_COUNT && k < SLOTS_COUNT && forall d | d in hw :: d.id != k
    ensures Configured(slots, hw)[k] == slots[k]
  {
    if hw == [] {
    } else {
      UnreportedSlotStays(slots, hw[..|hw| - 1], k);
    }
  }

  class KeySlotStorage {
    const storage: array<KeySlot>

    ghost predicate Valid()
    {
      storage.Length == SLOTS_COUNT
    }

    ghost function Slots(): (s: seq<KeySlot>)
      reads this, storage
    {
      storage[..]
    }

    constructor ()
      ensures Valid() && fresh(storage) && Slots() == DefaultSlots()
    {
      storage := new KeySlot[SLOTS_COUNT](_ => DEFAULT_SLOT);
    }

    /** The start-up check of a stored mapping; a warning is an answer of its own. */
    method KeyValidateAndMarkBusy(keyId: nat, a: Attributes) returns (r: Result<bool, ()>)
      requires Valid() && keyId < SLOTS_COUNT
      modifies storage
      ensures r.Err? <==> (Compatible(old(storage[keyId]).config, keyId, a, None) ==>
                             old(storage[keyId]).refCount == 0 && old(storage[keyId]).status.Locked?)
      ensures r == Ok(true) <==>
              Compatible(old(storage[keyId]).config, keyId, a, None) && old(storage[keyId]).refCount > 0
      ensures r == Ok(true) ==> Slots() == old(Slots())
      ensures r == Ok(false) ==> Slots() == old(Slots())[keyId := old(storage[keyId]).(refCount := 1, status := Busy)]
      ensures r.Err? ==> Slots() == if !Compatible(old(storage[keyId]).config, keyId, a, None) then old(Slots())
                                    else old(Slots())[keyId := old(storage[keyId]).(refCount := 1)]
    {
      if !Compatible(storage[keyId].config, keyId, a, None) { return Err(()); }
      if storage[keyId].refCount > 0 { return Ok(true); }
      storage[keyId] := storage[keyId].(refCount := 1);
      var (slot, set') := SetStatus(storage[keyId], Busy);
      storage[keyId] := slot;
      if set'.Err? { return Err(()); }
      return Ok(false);
    }

    method SetHwConfig(hw: seq<DeviceSlot>)
      requires Valid()
      modifies storage
      ensures Slots() == Configured(old(Slots()), hw)
    {
      assert hw[..0] == [];
      for n := 0 to |hw|
        invariant Slots() == Configured(old(Slots()), hw[..n])
      {
        assert hw[..n + 1][..n] == hw[..n];
        if hw[n].IsValid() {
          storage[hw[n].id] := hw[n].Fresh();
        }
      }
      assert hw[..|hw|] == hw;
    }

    method SetSlotStatus(slot: nat, status: SlotStatus) returns (r: Result<(), ResponseStatus>)
      requires Valid() && slot < SLOTS_COUNT
      modifies storage
      ensures r == if old(storage[slot]).status.Locked? || status.Locked? then Err(PsaErrorNotPermitted) else Ok(())
      ensures Slots() == if r.Ok? then old(Slots())[slot := old(storage[slot]).(status := status)] else old(Slots())
      ensures Slots() == WithStatus(old(Slots()), slot, status)
    {
      var (s, r') := SetStatus(storage[slot], status);
      storage[slot] := s;
      return r';
    }

    /** Reserves the least-numbered free slot that can hold the key; refuses exactly when there is none. */
    method FindSuitableSlot(a: Attributes, op: Option<Opcode>) returns (r: Result<nat, ResponseStatus>)
      requires Valid()
      modifies storage
      ensures r.Ok? ==> IsLeastSuitable(old(Slots()), r.value, a, op)
      ensures r.Ok? ==> Slots() == old(Slots())[r.value := old(Slots())[r.value].(status := Busy)]
      ensures r.Err? ==> r == Err(PsaErrorInsufficientStorage) && Slots() == old(Slots())
      ensures r.Err? <==> forall k: nat :: !Suits(old(Slots()), k, a, op)
    {
      for slot := 0 to SLOTS_COUNT
        invariant Slots() == old(Slots())
        invariant forall k: nat | k < slot :: !Suits(old(Slots()), k, a, op)
      {
        if !storage[slot].status.Free? { continue; }
        if Compatible(storage[slot].config, slot, a, op) {
          var (s, set') := SetStatus(storage[slot], Busy);
          assert Suits(old(Slots()), slot, a, op);
          storage[slot] := s;
          match set' {
            case Ok(_) => return Ok(slot);
            case Err(e) => return Err(e);
          }
        }
      }
      return Err(PsaErrorInsufficientStorage);
    }
  }

  /** A slot handed out for import or generation passes the check of start-up for the same attributes. */
  lemma HandedOutSlotIsValid(slots: seq<KeySlot>, k: nat, a: Attributes, op: Opcode)
    requires op.PsaImportKey? || op.PsaGenerateKey?
    requires IsLeastSuitable(slots, k, a, Some(op))
    ensures Compatible(slots[k].config, k, a, None)
    ensures op.PsaImportKey? ==> Suits(slots, k, a, Some(PsaGenerateKey))
  {
    CompatibilityChain(slots[k].config, k, a);
  }
}
