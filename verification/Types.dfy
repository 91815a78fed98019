/** The values shared by the whole service: names, providers, key triples, key information. */
module Types {
  datatype Option<+T> = None | Some(value: T)

  datatype Result<+T, +E> = Ok(value: T) | Err(error: E)

  type Byte = b: int | 0 <= b < 256

  /** The response codes that the modelled code returns. */
  datatype ResponseStatus =
    | Success
    | WrongProviderId
    | ContentTypeNotSupported
    | AcceptTypeNotSupported
    | ProviderNotRegistered
    | AuthenticatorNotRegistered
    | NotAuthenticated
    | AuthenticationError
    | AdminOperation
    | InvalidEncoding
    | KeyInfoManagerError
    | PsaErrorAlreadyExists
    | PsaErrorDoesNotExist
    | PsaErrorNotSupported
    | PsaErrorNotPermitted
    | PsaErrorInvalidArgument
    | PsaErrorInsufficientMemory
    | PsaErrorInsufficientStorage
    | PsaErrorStorageFailure
    | PsaErrorHardwareFailure
    | PsaErrorGenericError
    | PsaErrorCommunicationFailure

  datatype ProviderId = Core | MbedCrypto | Pkcs11 | Tpm | TrustedService | CryptoAuthLib

  /** A continuation byte of the UTF-8 encoding form. */
  predicate Continuation(b: Byte) { 0x80 <= b <= 0xBF }

  /** Well-formed UTF-8, as section 4 of RFC 3629 defines it. */
  predicate ValidUtf8(s: seq<Byte>) {
    if |s| == 0 then true
    else if s[0] <= 0x7F then ValidUtf8(s[1..])
    else if |s| >= 2 && 0xC2 <= s[0] <= 0xDF && Continuation(s[1]) then ValidUtf8(s[2..])
    else if |s| >= 3 && 0xE0 <= s[0] <= 0xEF && Continuation(s[1]) && Continuation(s[2])
            && (s[0] == 0xE0 ==> s[1] >= 0xA0) && (s[0] == 0xED ==> s[1] <= 0x9F) then
      ValidUtf8(s[3..])
    else if |s| >= 4 && 0xF0 <= s[0] <= 0xF4 && Continuation(s[1]) && Continuation(s[2]) && Continuation(s[3])
            && (s[0] == 0xF0 ==> s[1] >= 0x90) && (s[0] == 0xF4 ==> s[1] <= 0x8F) then
      ValidUtf8(s[4..])
    else false
  }

  /** The bytes of a Rust `String`. */
  type Name = s: seq<Byte> | ValidUtf8(s) witness []

  datatype KeyTriple = KeyTriple(app: Name, provider: ProviderId, key: Name)
}
