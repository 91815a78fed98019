/** Key attributes of the PSA interface, with the cases that the CryptoAuthLib slot checks tell apart. */
module PsaAttributes {
  datatype EccFamily = SecpK1 | SecpR1 | SecpR2 | SectK1 | SectR1 | SectR2 | BrainpoolPR1 | Frp | Montgomery

  datatype DhFamily = Rfc7919

  datatype KeyType =
    | RawData | Hmac | Derive | Aes | Des | Camellia | Arc4 | Chacha20
    | RsaPublicKey | RsaKeyPair
    | EccKeyPair(curve: EccFamily) | EccPublicKey(curve: EccFamily)
    | DhKeyPair(group: DhFamily) | DhPublicKey(group: DhFamily)
  {
    predicate IsPublicKey() { RsaPublicKey? || EccPublicKey? || DhPublicKey? }
  }

  datatype Hash = Md2 | Md4 | Md5 | Ripemd160 | Sha1 | Sha224 | Sha256 | Sha384 | Sha512 | Sha3

  datatype FullLengthMac = HmacOf(hash: Hash) | CbcMac | Cmac

  datatype Mac = FullLength(mac: FullLengthMac) | Truncated(mac: FullLengthMac, length: nat)

  datatype Cipher = StreamCipher | Ctr | Cfb | Ofb | Xts | EcbNoPadding | CbcNoPadding | CbcPkcs7

  datatype AeadAlg = Ccm | Gcm | Chacha20Poly1305

  datatype Aead = DefaultLengthTag(aead: AeadAlg) | ShortenedTag(aead: AeadAlg, length: nat)

  datatype SignHash = AnyHash | Specific(hash: Hash)

  datatype Signature =
    | RsaPkcs1v15Sign(hash: SignHash) | RsaPkcs1v15SignRaw | RsaPss(hash: SignHash)
    | Ecdsa(hash: SignHash) | EcdsaAny | DeterministicEcdsa(hash: SignHash)

  datatype AsymmetricEncryption = RsaPkcs1v15Crypt | RsaOaep(hash: Hash)

  datatype RawKeyAgreement = Ffdh | Ecdh

  datatype KeyAgreement = Raw(alg: RawKeyAgreement) | WithKeyDerivation(alg: RawKeyAgreement)

  datatype Algorithm =
    | NoAlgorithm
    | HashAlg(hash: Hash)
    | MacAlg(mac: Mac)
    | CipherAlg(cipher: Cipher)
    | AeadAlgorithm(aead: Aead)
    | SignatureAlg(sign: Signature)
    | EncryptionAlg(encryption: AsymmetricEncryption)
    | KeyAgreementAlg(agreement: KeyAgreement)
    | KeyDerivationAlg

  datatype UsageFlags = UsageFlags(
    exportable: bool, copy: bool, cache: bool, encrypt: bool, decrypt: bool,
    signMessage: bool, verifyMessage: bool, signHash: bool, verifyHash: bool, derive: bool)

  datatype Attributes = Attributes(keyType: KeyType, bits: nat, usage: UsageFlags, algorithm: Algorithm)
}
