/** Sources/X3DHSDK/Crypto/SessionCipher.swift: static Diffie-Hellman between
 *  one's own private key and the peer's public key, key derivation, then AEAD.
 *  The key is recomputed on every call; nothing is cached. */
module SessionCiphers {
  import opened Wrappers
  import opened Errors
  import opened Primitives
  import KeyDerivation
  import AEADEncryptor

  datatype SessionCipher = SessionCipher(privateKey: PrivateKey, remotePublicKey: PublicKey) {

    /** The pairing's symmetric key: agreement, then derivation; the agreement may throw. */
    function DerivedKey(kit: Provider): Result<SymmetricKey, CryptoKitError> {
      match kit.sharedSecret(privateKey, remotePublicKey)
      case Ok(secret) => Ok(KeyDerivation.DeriveSymmetricKey(kit, secret))
      case Err(cause) => Err(cause)
    }

    /** Seals `message` under the pairing's key; any failure, of the agreement
     *  or of the sealing, is thrown as `encodingError`. */
    function Encrypt(kit: Provider, message: Bytes, nonce: Bytes): (r: Result<Bytes, Thrown>)
      ensures r.Ok? <==> DerivedKey(kit).Ok? && kit.seal(DerivedKey(kit).value, nonce, message).Ok?
      ensures r.Err? ==> r.error == X3DH(EncodingError)
    {
      match DerivedKey(kit)
      case Err(_) => Err(X3DH(EncodingError))
      case Ok(key) =>
        match AEADEncryptor.Encrypt(kit, message, key, nonce)
        case Ok(ciphertext) => Ok(ciphertext)
        case Err(_) => Err(X3DH(EncodingError))
    }

    /** Opens `ciphertext` with the recomputed pairing key; any failure,
     *  including a failed agreement, is thrown as `decryptionFailed`. */
    function Decrypt(kit: Provider, ciphertext: Bytes): (r: Result<Bytes, Thrown>)
      ensures r.Err? ==> r.error == X3DH(DecryptionFailed)
      ensures DerivedKey(kit).Err? ==> r == Err(X3DH(DecryptionFailed))
      ensures DerivedKey(kit).Ok? ==> r == AEADEncryptor.Decrypt(kit, ciphertext, DerivedKey(kit).value)
    {
      match DerivedKey(kit)
      case Err(_) => Err(X3DH(DecryptionFailed))
      case Ok(key) =>
        match AEADEncryptor.Decrypt(kit, ciphertext, key)
        case Ok(plaintext) => Ok(plaintext)
        case Err(_) => Err(X3DH(DecryptionFailed))
    }
  }

  /** Both ends of a pairing compute the same key. */
  lemma MirroredCiphersShareKey(kit: Provider, a: PrivateKey, b: PrivateKey)
    requires AgreementIsSymmetric(kit)
    ensures SessionCipher(a, kit.publicKey(b)).DerivedKey(kit) == SessionCipher(b, kit.publicKey(a)).DerivedKey(kit)
  {
  }

  /** What one end encrypts, the other end decrypts to the same message. */
  lemma MirroredRoundTrip(kit: Provider, a: PrivateKey, b: PrivateKey, message: Bytes, nonce: Bytes)
    requires AgreementIsSymmetric(kit) && SealOpenRoundTrip(kit)
    requires SessionCipher(a, kit.publicKey(b)).Encrypt(kit, message, nonce).Ok?
    ensures SessionCipher(b, kit.publicKey(a)).Decrypt(kit, SessionCipher(a, kit.publicKey(b)).Encrypt(kit, message, nonce).value)
         == Ok(message)
  {
    var sender := SessionCipher(a, kit.publicKey(b));
    MirroredCiphersShareKey(kit, a, b);
    AEADEncryptor.RoundTrip(kit, message, sender.DerivedKey(kit).value, nonce);
  }

  /** A cipher whose pairing key differs from the sender's (a different private
   *  key, say) cannot decrypt: it fails with `decryptionFailed`. */
  lemma OtherPairingFails(kit: Provider, sender: SessionCipher, receiver: SessionCipher, message: Bytes, nonce: Bytes)
    requires SealOpenRoundTrip(kit) && OpenRejectsOtherKeys(kit)
    requires sender.Encrypt(kit, message, nonce).Ok?
    requires receiver.DerivedKey(kit) != sender.DerivedKey(kit)
    ensures receiver.Decrypt(kit, sender.Encrypt(kit, message, nonce).value) == Err(X3DH(DecryptionFailed))
  {
    if receiver.DerivedKey(kit).Ok? {
      AEADEncryptor.OtherKeyFails(kit, message, sender.DerivedKey(kit).value, receiver.DerivedKey(kit).value, nonce);
    }
  }
}
