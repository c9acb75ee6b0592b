/** Sources/X3DHSDK/Messages/EncryptedMessage.swift: the two kinds of message
 *  a session produces, told apart by their tag. */
module EncryptedMessages {
  import opened Primitives

  datatype EncryptedMessage =
    | Session(ciphertext: Bytes)
    | Forward(ciphertext: Bytes, ephemeralPublicKey: PublicKey, signature: Bytes)
}
