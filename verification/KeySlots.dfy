/** One hardware slot of an ATECC device: its status, its configuration and the compatibility checks. */
module KeySlots {
  import opened Types
  import opened PsaAttributes
  import opened Opcodes

  datatype SlotStatus = Free | Busy | Locked

  datatype DeviceKeyType = P256EccKey | AesKey | ShaOrText | OtherKey

  datatype WriteConfig = Reserved | Always | PubInvalid | Never | Encrypted

  datatype SlotConfig = SlotConfig(
    writeConfig: WriteConfig, keyType: DeviceKeyType, isPrivate: bool, extSign: bool,
    isSecret: bool, noMac: bool, pubInfo: bool)

  datatype KeySlot = KeySlot(refCount: nat, status: SlotStatus, config: SlotConfig)

  const SLOTS_COUNT: nat := 16

  /** The slots below are too short for an ECC public key. */
  const MIN_PUBLIC_KEY_SLOT: nat := 8

  predicate IsKeyTypeOk(c: SlotConfig, slot: nat, a: Attributes) {
    match a.keyType
    case RawData => c.keyType.ShaOrText?
    case Hmac => !c.noMac
    case Aes => c.keyType.AesKey?
    case EccKeyPair(SecpR1) => (a.bits == 0 || a.bits == 256) && c.keyType.P256EccKey? && c.isPrivate && c.isSecret
    case EccPublicKey(SecpR1) => (a.bits == 0 || a.bits == 256) && c.keyType.P256EccKey? && slot >= MIN_PUBLIC_KEY_SLOT
    case _ => false
  }

  /** The public half of a private key can be had. */
  predicate PublicHalf(c: SlotConfig) { c.isPrivate ==> c.pubInfo }

  predicate IsUsageFlagsOk(c: SlotConfig, a: Attributes) {
    && ((a.usage.exportable || a.usage.copy) && a.keyType.EccKeyPair? ==> c.keyType.P256EccKey? && PublicHalf(c))
    && (a.usage.signHash || a.usage.signMessage ==>
          c.keyType.P256EccKey? && c.isPrivate && c.extSign && a.keyType.EccKeyPair?)
    && (a.usage.verifyHash || a.usage.verifyMessage ==>
          c.keyType.P256EccKey? && (a.keyType.EccKeyPair? ==> PublicHalf(c)))
  }

  /** The write configurations under which a key pair may be put into a slot by an operation. */
  predicate IsWriteConfigOk(w: WriteConfig, op: Option<Opcode>) {
    match op
    case None => true
    case Some(PsaImportKey) => w.Encrypted?
    case Some(PsaGenerateKey) => w.Encrypted? || w.Never?
    case Some(_) => false
  }

  predicate IsEcdsaOk(c: SlotConfig, a: Attributes, op: Option<Opcode>) {
    && c.keyType.P256EccKey?
    && match a.keyType
       case EccKeyPair(SecpR1) => c.isPrivate && c.extSign && IsWriteConfigOk(c.writeConfig, op)
       case EccPublicKey(SecpR1) => c.writeConfig.Encrypted? || c.writeConfig.Never? || c.writeConfig.Always?
       case _ => false
  }

  predicate IsMacOk(c: SlotConfig, mac: FullLengthMac) {
    match mac
    case HmacOf(Sha256) => !c.noMac && !c.keyType.P256EccKey? && !c.isPrivate
    case HmacOf(_) => false
    case CbcMac | Cmac => !c.noMac && c.keyType.AesKey?
  }

  predicate IsPermittedAlgorithmsOk(c: SlotConfig, a: Attributes, op: Option<Opcode>) {
    match a.algorithm
    case HashAlg(Sha256) => true
    case MacAlg(m) => IsMacOk(c, m.mac)
    case CipherAlg(m) => (m.CbcPkcs7? || m.Ctr? || m.Cfb? || m.Ofb?) && c.keyType.AesKey?
    case AeadAlgorithm(m) => (m.aead.Ccm? || m.aead.Gcm?) && c.keyType.AesKey?
    case SignatureAlg(Ecdsa(Specific(Sha256))) => IsEcdsaOk(c, a, op)
    case KeyAgreementAlg(k) => k.alg.Ecdh? && c.keyType.P256EccKey?
    case _ => false
  }

  /** `key_attr_vs_config`: the slot can hold a key of these attributes, put there by the operation. */
  predicate Compatible(c: SlotConfig, slot: nat, a: Attributes, op: Option<Opcode>) {
    IsKeyTypeOk(c, slot, a) && IsUsageFlagsOk(c, a) && IsPermittedAlgorithmsOk(c, a, op)
  }

  /** `set_slot_status`: a locked slot cannot be changed and no slot can be locked. */
  function SetStatus(s: KeySlot, status: SlotStatus): (r: (KeySlot, Result<(), ResponseStatus>)) {
    if s.status.Locked? || status.Locked? then (s, Err(PsaErrorNotPermitted)) else (s.(status := status), Ok(()))
  }

  /** The device's name for the type of a key. */
  function CalibKeyType(a: Attributes): (r: Result<DeviceKeyType, ResponseStatus>) {
    match a.keyType
    case RawData => Ok(ShaOrText)
    case Aes => Ok(AesKey)
    case EccKeyPair(SecpR1) => if a.bits == 256 || a.bits == 0 then Ok(P256EccKey) else Err(PsaErrorNotSupported)
    case EccPublicKey(SecpR1) => if a.bits == 256 || a.bits == 0 then Ok(P256EccKey) else Err(PsaErrorNotSupported)
    case _ => Err(PsaErrorNotSupported)
  }

  /** `raw_key_extract`: a public key loses its prefix, and is refused when it is not 65 bytes long. */
  function RawKeyExtract(k: KeyType, key: seq<Byte>): (r: Result<seq<Byte>, ResponseStatus>) {
    match k
    case Aes | RawData => Ok(key)
    case EccKeyPair(SecpR1) => Ok(key)
    case EccPublicKey(SecpR1) => if |key| == 65 then Ok(key[1..]) else Err(PsaErrorInvalidArgument)
    case _ => Err(PsaErrorNotSupported)
  }

  datatype Use = Export | Copy | SignAHash | SignAMessage | VerifyAHash | VerifyAMessage

  function Uses(u: UsageFlags): (r: set<Use>) {
    (if u.exportable then {Export} else {}) + (if u.copy then {Copy} else {})
    + (if u.signHash then {SignAHash} else {}) + (if u.signMessage then {SignAMessage} else {})
    + (if u.verifyHash then {VerifyAHash} else {}) + (if u.verifyMessage then {VerifyAMessage} else {})
  }

  /** The uses that a slot has for a key of a type, besides those that no check restricts. */
  function AllowedUses(c: SlotConfig, k: KeyType): (r: set<Use>) {
    var ecc, pair := c.keyType.P256EccKey?, k.EccKeyPair?;
    (if !pair || (ecc && PublicHalf(c)) then {Export, Copy} else {})
    + (if pair && ecc && c.isPrivate && c.extSign then {SignAHash, SignAMessage} else {})
    + (if ecc && (!pair || PublicHalf(c)) then {VerifyAHash, VerifyAMessage} else {})
  }

  /** A set of usage flags is fine exactly when each of its uses is. */
  lemma UsageIsByUse(c: SlotConfig, a: Attributes)
    ensures IsUsageFlagsOk(c, a) <==> Uses(a.usage) <= AllowedUses(c, a.keyType)
  {
    assert a.usage.exportable <==> Export in Uses(a.usage);
    assert a.usage.copy <==> Copy in Uses(a.usage);
    assert a.usage.signHash <==> SignAHash in Uses(a.usage);
    assert a.usage.signMessage <==> SignAMessage in Uses(a.usage);
    assert a.usage.verifyHash <==> VerifyAHash in Uses(a.usage);
    assert a.usage.verifyMessage <==> VerifyAMessage in Uses(a.usage);
  }

  /** The algorithms that work on a slot whatever key type it is configured for. */
  predicate RunsAnywhere(c: SlotConfig, g: Algorithm) {
    || g == HashAlg(Sha256)
    || (g.MacAlg? && g.mac.mac == HmacOf(Sha256) && !c.noMac && !c.isPrivate && !c.keyType.P256EccKey?)
  }

  /** The key is an HMAC key, which any slot with MACs enabled takes. */
  predicate IsMacKey(c: SlotConfig, a: Attributes) { a.keyType == Hmac && !c.noMac }

  predicate SignsOrVerifies(u: UsageFlags) { u.signHash || u.signMessage || u.verifyHash || u.verifyMessage }

  /** What a slot that is configured for AES takes. */
  predicate AesSlotTakes(c: SlotConfig, a: Attributes) {
    && (a.keyType == Aes || IsMacKey(c, a)) && !SignsOrVerifies(a.usage)
    && (|| RunsAnywhere(c, a.algorithm)
        || a.algorithm in {CipherAlg(Ctr), CipherAlg(Cfb), CipherAlg(Ofb), CipherAlg(CbcPkcs7)}
        || (a.algorithm.AeadAlgorithm? && a.algorithm.aead.aead != Chacha20Poly1305)
        || (a.algorithm.MacAlg? && !a.algorithm.mac.mac.HmacOf? && !c.noMac))
  }

  /** What a slot that is configured for text takes. */
  predicate TextSlotTakes(c: SlotConfig, a: Attributes) {
    (a.keyType == RawData || IsMacKey(c, a)) && !SignsOrVerifies(a.usage) && RunsAnywhere(c, a.algorithm)
  }

  /** What a slot that is configured for P-256 takes: key pairs if private and secret, public keys if long enough. */
  predicate EccSlotTakes(c: SlotConfig, slot: nat, a: Attributes, op: Option<Opcode>) {
    var pair, public := a.keyType == EccKeyPair(SecpR1), a.keyType == EccPublicKey(SecpR1);
    && (pair || public ==> a.bits in {0, 256})
    && ((pair && c.isPrivate && c.isSecret) || (public && slot >= MIN_PUBLIC_KEY_SLOT) || IsMacKey(c, a))
    && (a.usage.signHash || a.usage.signMessage ==> pair && c.extSign)
    && (pair && (a.usage.exportable || a.usage.copy || a.usage.verifyHash || a.usage.verifyMessage) ==> c.pubInfo)
    && match a.algorithm
       case SignatureAlg(g) =>
         && g == Ecdsa(Specific(Sha256))
         && ((pair && c.extSign && IsWriteConfigOk(c.writeConfig, op))
             || (public && c.writeConfig in {Encrypted, Never, Always}))
       case KeyAgreementAlg(g) => g.alg == Ecdh
       case g => g == HashAlg(Sha256)
  }

  /** Slot by slot: which keys a slot takes, by what it is configured for. */
  lemma SlotsByType(c: SlotConfig, slot: nat, a: Attributes, op: Option<Opcode>)
    ensures Compatible(c, slot, a, op) <==>
            match c.keyType
            case AesKey => AesSlotTakes(c, a)
            case ShaOrText => TextSlotTakes(c, a)
            case P256EccKey => EccSlotTakes(c, slot, a, op)
            case OtherKey => IsMacKey(c, a) && !SignsOrVerifies(a.usage) && RunsAnywhere(c, a.algorithm)
  {
  }

  /** The pairs of key and slot on which the operation makes a difference. */
  predicate IsEcdsaKeyPair(c: SlotConfig, slot: nat, a: Attributes) {
    && a.keyType == EccKeyPair(SecpR1) && a.algorithm == SignatureAlg(Ecdsa(Specific(Sha256)))
    && IsKeyTypeOk(c, slot, a) && IsUsageFlagsOk(c, a) && c.extSign
  }

  /** A slot fit for import is fit for generation, and that one is fit for the check of start-up. */
  lemma CompatibilityChain(c: SlotConfig, slot: nat, a: Attributes)
    ensures Compatible(c, slot, a, Some(PsaImportKey)) ==> Compatible(c, slot, a, Some(PsaGenerateKey))
    ensures Compatible(c, slot, a, Some(PsaGenerateKey)) ==> Compatible(c, slot, a, None)
    ensures Compatible(c, slot, a, None) && !Compatible(c, slot, a, Some(PsaGenerateKey)) <==>
            IsEcdsaKeyPair(c, slot, a) && !c.writeConfig.Encrypted? && !c.writeConfig.Never?
    ensures Compatible(c, slot, a, Some(PsaGenerateKey)) && !Compatible(c, slot, a, Some(PsaImportKey)) <==>
            IsEcdsaKeyPair(c, slot, a) && c.writeConfig.Never?
  {
    if IsEcdsaKeyPair(c, slot, a) {
      assert forall op :: Compatible(c, slot, a, op) <==> IsWriteConfigOk(c.writeConfig, op);
    } else {
      assert forall op, op' :: Compatible(c, slot, a, op) <==> Compatible(c, slot, a, op');
    }
  }

  /** The device has a type for every key that a slot takes, but for HMAC keys: the one the slot is configured for. */
  lemma DeviceTypeMatches(c: SlotConfig, slot: nat, a: Attributes, op: Option<Opcode>)
    requires Compatible(c, slot, a, op)
    ensures CalibKeyType(a) == if a.keyType == Hmac then Err(PsaErrorNotSupported) else Ok(c.keyType)
  {
  }

  /** Once the device has a type for the key, only a public key of the wrong length is refused. */
  lemma OnlyPublicKeysAreRefused(a: Attributes, key: seq<Byte>)
    requires CalibKeyType(a).Ok?
    ensures RawKeyExtract(a.keyType, key).Err? <==> a.keyType.EccPublicKey? && |key| != 65
    ensures RawKeyExtract(a.keyType, key).Ok? ==>
              var raw := RawKeyExtract(a.keyType, key).value;
              if a.keyType.EccPublicKey? then |raw| == 64 && [key[0]] + raw == key else raw == key
  {
  }
}
