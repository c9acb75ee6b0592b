/** The errors the SDK throws (Sources/X3DHSDK/Errors/X3DHError.swift) and the
 *  errors its cryptographic library can throw underneath it. */
module Errors {

  /** The SDK's own error taxonomy; the localized descriptions are not modelled. */
  datatype X3DHError =
    | InvalidSessionConfiguration
    | MissingSigningPublicKey
    | InvalidSignature
    | DecryptionFailed
    | InvalidKeyData
    | KeyAgreementFailed
    | EncodingError
    | DecodingError
    | Unknown

  /** Failures reported by the cryptographic library (CryptoKit's error cases). */
  datatype CryptoKitError =
    | IncorrectKeySize
    | IncorrectParameterSize
    | AuthenticationFailure
    | UnderlyingCoreCryptoError

  /** What a Swift `throws` function of the SDK can throw: Swift errors are
   *  untyped, so a library error that is not caught and remapped reaches the
   *  caller as it is. */
  datatype Thrown = X3DH(kind: X3DHError) | Foreign(cause: CryptoKitError)
}
