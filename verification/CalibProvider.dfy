/** The CryptoAuthLib provider object: start-up, `psa_generate_key`, `psa_import_key` and `psa_destroy_key`. */
module CalibProvider {
  import opened Types
  import opened PsaAttributes
  import opened Opcodes
  import opened KeySlots
  import opened KeySlotStorage
  import opened SlotLifecycle
  import opened SlotOwnership
  import KeyInfoManager
  import FileNames
  import OnDiskManager
  import StartUp

  /** The state of the machine with no operation under way. */
  ghost function AtRest(slots: seq<KeySlot>, mem: map<KeyTriple, nat>, leaked: set<nat>): (s: State) {
    State([], slots, mem, [], leaked, |leaked|)
  }

  /** A creation fails for a reason that the caller can do something about, and before a slot is reserved. */
  predicate Accepted(slots: seq<KeySlot>, mem: map<KeyTriple, nat>, c: Creation) {
    c.t !in mem && c.Admissible() && Search(slots, c.attributes, c.Opcode(), 0).Some?
  }

  lemma GivenBack(slots: seq<KeySlot>, k: nat)
    requires k < |slots| && slots[k].status.Free?
    ensures WithStatus(WithStatus(slots, k, Busy), k, Free) == slots
  {
  }

  lemma NewMappingBalances(slots: seq<KeySlot>, mem: map<KeyTriple, nat>, leaked: set<nat>, t: KeyTriple, k: nat)
    requires Ledger(AtRest(slots, mem, leaked)) && t !in mem && k < |slots| && slots[k].status.Free?
    ensures Ledger(AtRest(WithStatus(slots, k, Busy), mem[t := k], leaked))
  {
    PassingKeepsLedger(AtRest(slots, mem, leaked), AtRest(WithStatus(slots, k, Busy), mem[t := k], leaked),
                       None, Some(Mapping(t)), k);
  }

  lemma NewLeakBalances(slots: seq<KeySlot>, mem: map<KeyTriple, nat>, leaked: set<nat>, k: nat)
    requires Ledger(AtRest(slots, mem, leaked)) && k < |slots| && slots[k].status.Free?
    ensures Ledger(AtRest(WithStatus(slots, k, Busy), mem, leaked + {k}))
  {
    PassingKeepsLedger(AtRest(slots, mem, leaked), AtRest(WithStatus(slots, k, Busy), mem, leaked + {k}),
                       None, Some(Leak), k);
  }

  lemma DroppedMappingBalances(slots: seq<KeySlot>, mem: map<KeyTriple, nat>, leaked: set<nat>, t: KeyTriple)
    requires Ledger(AtRest(slots, mem, leaked)) && t in mem && mem[t] < |slots|
    ensures Ledger(AtRest(WithStatus(slots, mem[t], Free), mem - {t}, leaked))
  {
    var s := AtRest(slots, mem, leaked);
    assert Owns(s, Mapping(t), mem[t]);
    PassingKeepsLedger(s, AtRest(WithStatus(slots, mem[t], Free), mem - {t}, leaked), Some(Mapping(t)), None, mem[t]);
  }

  class Provider {
    const keySlots: KeySlotStorage
    var mem: map<KeyTriple, nat>
    ghost var leaked: set<nat>

    /** Every busy slot is accounted for. */
    ghost predicate Valid()
      reads this, keySlots, keySlots.storage
    {
      keySlots.Valid() && Ledger(AtRest(keySlots.Slots(), mem, leaked))
    }

    ghost function Slots(): (s: seq<KeySlot>)
      reads this, keySlots, keySlots.storage
    {
      keySlots.Slots()
    }

    constructor (keySlots: KeySlotStorage)
      requires keySlots.Valid() && forall k | 0 <= k < SLOTS_COUNT :: !keySlots.storage[k].status.Busy?
      ensures Valid() && this.keySlots == keySlots && mem == map[] && leaked == {}
    {
      this.keySlots, mem, leaked := keySlots, map[], {};
    }

    method GenerateKey(t: KeyTriple, attributes: Attributes, deviceFails: bool, storeFails: bool)
      returns (r: Result<(), ResponseStatus>)
      requires Valid()
      modifies this, keySlots.storage
      ensures Valid() && leaked == old(leaked)
      ensures var c := Creation(t, attributes, false, []);
              r.Ok? <==> Accepted(old(Slots()), old(mem), c) && !deviceFails && !storeFails
      ensures r.Ok? ==> t in mem && IsLeastSuitable(old(Slots()), mem[t], attributes, Some(PsaGenerateKey))
                        && mem == old(mem)[t := mem[t]] && Slots() == WithStatus(old(Slots()), mem[t], Busy)
      ensures r.Err? ==> mem == old(mem) && Slots() == old(Slots())
      ensures r.Ok? ==> !attributes.keyType.EccPublicKey? && !attributes.keyType.Hmac?
      ensures r == Err(PsaErrorAlreadyExists) <==> t in old(mem)
      ensures r == Err(PsaErrorInsufficientStorage) <==>
              var c := Creation(t, attributes, false, []);
              t !in old(mem) && c.Admissible()
              && forall k: nat :: !Suits(old(Slots()), k, attributes, Some(PsaGenerateKey))
    {
      if t in mem { return Err(PsaErrorAlreadyExists); }
      if attributes.keyType.IsPublicKey() { return Err(PsaErrorInvalidArgument); }
      var keyType := CalibKeyType(attributes);
      if keyType.Err? { return Err(keyType.error); }
      var slot := keySlots.FindSuitableSlot(attributes, Some(PsaGenerateKey));
      if slot.Err? { return Err(slot.error); }
      var k := slot.value;
      SearchIsLeast(old(Slots()), attributes, PsaGenerateKey, k);
      GivenBack(old(Slots()), k);
      if deviceFails {
        var _ := keySlots.SetSlotStatus(k, Free);
        return Err(PsaErrorInvalidArgument);
      }
      if storeFails {
        var _ := keySlots.SetSlotStatus(k, Free);
        return Err(KeyInfoManagerError);
      }
      mem := mem[t := k];
      NewMappingBalances(old(Slots()), old(mem), leaked, t, k);
      return Ok(());
    }

    /** The slot is reserved before the key is read, so a key that cannot be read costs the slot. */
    method ImportKey(t: KeyTriple, attributes: Attributes, data: seq<Byte>, device: Option<ResponseStatus>,
                     storeFails: bool)
      returns (r: Result<(), ResponseStatus>)
      requires Valid()
      modifies this, keySlots.storage
      ensures Valid()
      ensures var c := Creation(t, attributes, true, data);
              r.Ok? <==> Accepted(old(Slots()), old(mem), c) && !c.Unreadable() && device.None? && !storeFails
      ensures r.Ok? ==> t in mem && IsLeastSuitable(old(Slots()), mem[t], attributes, Some(PsaImportKey))
                        && mem == old(mem)[t := mem[t]] && Slots() == WithStatus(old(Slots()), mem[t], Busy)
      ensures r.Err? ==> mem == old(mem)
      ensures leaked != old(leaked) || (r.Err? && Slots() != old(Slots())) ==>
                r.Err? && attributes.keyType.EccPublicKey? && |data| != 65 && |leaked| == |old(leaked)| + 1
      ensures var c := Creation(t, attributes, true, data);
              Accepted(old(Slots()), old(mem), c) && attributes.keyType.EccPublicKey? && |data| != 65 ==>
              leaked != old(leaked)
    {
      if t in mem { return Err(PsaErrorAlreadyExists); }
      var keyType := CalibKeyType(attributes);
      if keyType.Err? { return Err(keyType.error); }
      OnlyPublicKeysAreRefused(attributes, data);
      var slot := keySlots.FindSuitableSlot(attributes, Some(PsaImportKey));
      if slot.Err? { return Err(slot.error); }
      var k := slot.value;
      SearchIsLeast(old(Slots()), attributes, PsaImportKey, k);
      GivenBack(old(Slots()), k);
      var keyData := RawKeyExtract(attributes.keyType, data);
      if keyData.Err? {
        NewLeakBalances(old(Slots()), mem, leaked, k);
        assert !Owns(AtRest(old(Slots()), mem, leaked), Leak, k);
        leaked := leaked + {k};
        return Err(keyData.error);
      }
      var status := PsaErrorStorageFailure;
      if device.None? {
        if !storeFails {
          mem := mem[t := k];
          NewMappingBalances(old(Slots()), old(mem), leaked, t, k);
          return Ok(());
        }
      } else {
        status := device.value;
      }
      var _ := keySlots.SetSlotStatus(k, Free);
      return Err(status);
    }

    method DestroyKey(t: KeyTriple, storeFails: bool) returns (r: Result<(), ResponseStatus>)
      requires Valid()
      modifies this`mem, keySlots.storage
      ensures Valid()
      ensures r.Ok? <==> t in old(mem) && !storeFails
      ensures r.Ok? ==> old(mem)[t] < SLOTS_COUNT && mem == old(mem) - {t}
                        && Slots() == old(Slots())[old(mem)[t] := old(Slots())[old(mem)[t]].(status := Free)]
      ensures r.Err? ==> mem == old(mem) && Slots() == old(Slots())
    {
      if t !in mem { return Err(PsaErrorDoesNotExist); }
      var k := mem[t];
      assert Owns(AtRest(Slots(), mem, leaked), Mapping(t), k);
      if storeFails { return Err(KeyInfoManagerError); }
      mem := mem - {t};
      DroppedMappingBalances(old(Slots()), old(mem), leaked, t);
      var _ := keySlots.SetSlotStatus(k, Free);
      return Ok(());
    }
  }

  /**
   `Provider::new`. The loop asks for each listed triple that it should not exist, so it sets out to
   remove every mapping of the provider; the device is None when it cannot be used or read.
   */
  method Start(client: KeyInfoManager.KeyInfoManagerClient, device: Option<seq<DeviceSlot>>, failing: set<KeyTriple>)
    returns (r: Option<Provider>)
    modifies client.manager
    ensures r.Some? ==> fresh(r.value) && r.value.Valid() && r.value.mem == map[] && device.Some?
                        && r.value.Slots() == AtStart(device.value)
    ensures r.Some? ==> client.manager.keyStore ==
                        map t | t in old(client.manager.keyStore) && t.provider != client.providerId ::
                          old(client.manager.keyStore)[t]
    ensures StartUp.Lost(old(client.manager.disk), client.manager.disk,
                         iset t | t in old(client.manager.keyStore) && t.provider == client.providerId)
    ensures r.Some? ==> forall t | t in old(client.manager.keyStore) && t.provider == client.providerId ::
                          FileNames.PathOf(t) !in client.manager.disk.files
    ensures r.None? <==>
            device.None? || exists t | t in old(client.manager.keyStore) && t.provider == client.providerId ::
                              !OnDiskManager.CanDelete(old(client.manager.disk), t, t in failing)
  {
    if device.None? { return None; }
    var keySlots := new KeySlotStorage();
    keySlots.SetHwConfig(device.value);
    var toRemove: seq<KeyTriple> := [];
    var triples := client.manager.GetAll(client.providerId);
    for n := 0 to |triples|
      invariant client.manager.State() == old(client.manager.State()) && toRemove == triples[..n]
      invariant keySlots.Slots() == AtStart(device.value)
    {
      var absent := client.DoesNotExist(triples[n]);
      if absent.Err? {
        toRemove := toRemove + [triples[n]];
        continue;
      }
      assert false;
    }
    assert triples[..|triples|] == triples;
    var ok := StartUp.RemoveAll(client, toRemove, failing);
    if !ok { return None; }
    var provider := new Provider(keySlots);
    return Some(provider);
  }
}
