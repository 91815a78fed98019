/** The operations of the Parsec interface. */
module Opcodes {
  datatype Opcode =
    | Ping | ListProviders | ListOpcodes | ListAuthenticators | ListKeys | ListClients | DeleteClient
    | PsaGenerateKey | PsaImportKey | PsaDestroyKey | PsaExportKey | PsaExportPublicKey
    | PsaSignHash | PsaVerifyHash | PsaSignMessage | PsaVerifyMessage
    | PsaAsymmetricEncrypt | PsaAsymmetricDecrypt | PsaAeadEncrypt | PsaAeadDecrypt
    | PsaHashCompute | PsaHashCompare | PsaRawKeyAgreement | PsaGenerateRandom
  {
    predicate IsAdmin() { ListClients? || DeleteClient? }

    predicate IsCore() { Ping? || ListProviders? || ListOpcodes? || ListAuthenticators? || ListKeys? || IsAdmin() }

    /** The operation works on keys and runs under an application name. */
    predicate IsKeyed() {
      !(IsCore() && !ListKeys?) && !PsaHashCompute? && !PsaHashCompare? && !PsaGenerateRandom?
    }
  }
}
