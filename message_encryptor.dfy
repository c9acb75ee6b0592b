/** Sources/X3DHSDK/Messages/MessageEncryptor.swift: a session cipher with an
 *  optional second, independent key. Encryption applies the session cipher
 *  first and then, when the key is present, an outer AEAD layer; decryption
 *  removes the outer layer first. */
module MessageEncryptors {
  import opened Wrappers
  import opened Errors
  import opened Primitives
  import AEADEncryptor
  import opened SessionCiphers

  datatype MessageEncryptor = MessageEncryptor(sessionCipher: SessionCipher, additionalKey: Option<SymmetricKey>) {

    /** `nonce` is the session layer's AEAD nonce and `outerNonce` the outer
     *  layer's. Any failure is thrown as `encodingError`. */
    function Encrypt(kit: Provider, message: Bytes, nonce: Bytes, outerNonce: Bytes): (r: Result<Bytes, Thrown>)
      ensures r.Err? ==> r.error == X3DH(EncodingError)
      // without a second key, exactly the session cipher's result
      ensures additionalKey.None? ==> r == sessionCipher.Encrypt(kit, message, nonce)
      // with one, the session cipher's ciphertext sealed again under it
      ensures additionalKey.Some? ==>
        (r.Ok? <==> sessionCipher.Encrypt(kit, message, nonce).Ok? &&
                    AEADEncryptor.Encrypt(kit, sessionCipher.Encrypt(kit, message, nonce).value, additionalKey.value, outerNonce).Ok?)
      ensures additionalKey.Some? && r.Ok? ==>
        r == AEADEncryptor.Encrypt(kit, sessionCipher.Encrypt(kit, message, nonce).value, additionalKey.value, outerNonce)
    {
      match sessionCipher.Encrypt(kit, message, nonce)
      case Err(_) => Err(X3DH(EncodingError))
      case Ok(sessionEncrypted) =>
        match additionalKey
        case None => Ok(sessionEncrypted)
        case Some(key) =>
          match AEADEncryptor.Encrypt(kit, sessionEncrypted, key, outerNonce)
          case Ok(ciphertext) => Ok(ciphertext)
          case Err(_) => Err(X3DH(EncodingError))
    }

    /** Any failure, of either layer, is thrown as `decryptionFailed`. */
    function Decrypt(kit: Provider, ciphertext: Bytes): (r: Result<Bytes, Thrown>)
      ensures r.Err? ==> r.error == X3DH(DecryptionFailed)
      // without a second key, the ciphertext goes unchanged to the session cipher
      ensures additionalKey.None? ==> r == sessionCipher.Decrypt(kit, ciphertext)
      // with one, the session cipher only ever sees what the outer layer opened to
      ensures additionalKey.Some? ==>
        (r.Ok? <==> AEADEncryptor.Decrypt(kit, ciphertext, additionalKey.value).Ok? &&
                    sessionCipher.Decrypt(kit, AEADEncryptor.Decrypt(kit, ciphertext, additionalKey.value).value).Ok?)
      ensures additionalKey.Some? && r.Ok? ==>
        r == sessionCipher.Decrypt(kit, AEADEncryptor.Decrypt(kit, ciphertext, additionalKey.value).value)
    {
      var decryptedLayer :=
        match additionalKey
        case None => Ok(ciphertext)
        case Some(key) => AEADEncryptor.Decrypt(kit, ciphertext, key);
      match decryptedLayer
      case Err(_) => Err(X3DH(DecryptionFailed))
      case Ok(inner) =>
        match sessionCipher.Decrypt(kit, inner)
        case Ok(plaintext) => Ok(plaintext)
        case Err(_) => Err(X3DH(DecryptionFailed))
    }
  }

  /** Opening the outer layer of a layered ciphertext with the second key
   *  gives back exactly the session cipher's ciphertext: the session layer is
   *  the inner one. */
  lemma OuterLayerIsAdditionalKey(kit: Provider, encryptor: MessageEncryptor, message: Bytes, nonce: Bytes, outerNonce: Bytes)
    requires SealOpenRoundTrip(kit)
    requires encryptor.additionalKey.Some?
    requires encryptor.Encrypt(kit, message, nonce, outerNonce).Ok?
    ensures AEADEncryptor.Decrypt(kit, encryptor.Encrypt(kit, message, nonce, outerNonce).value, encryptor.additionalKey.value)
         == encryptor.sessionCipher.Encrypt(kit, message, nonce)
  {
    var inner := encryptor.sessionCipher.Encrypt(kit, message, nonce).value;
    AEADEncryptor.RoundTrip(kit, inner, encryptor.additionalKey.value, outerNonce);
  }

  /** Mirrored session ciphers holding the same second key, or none, round-trip any message. */
  lemma RoundTrip(kit: Provider, a: PrivateKey, b: PrivateKey, additionalKey: Option<SymmetricKey>,
                  message: Bytes, nonce: Bytes, outerNonce: Bytes)
    requires AgreementIsSymmetric(kit) && SealOpenRoundTrip(kit)
    requires MessageEncryptor(SessionCipher(a, kit.publicKey(b)), additionalKey).Encrypt(kit, message, nonce, outerNonce).Ok?
    ensures MessageEncryptor(SessionCipher(b, kit.publicKey(a)), additionalKey).Decrypt(
              kit, MessageEncryptor(SessionCipher(a, kit.publicKey(b)), additionalKey).Encrypt(kit, message, nonce, outerNonce).value)
         == Ok(message)
  {
    var sender := MessageEncryptor(SessionCipher(a, kit.publicKey(b)), additionalKey);
    if additionalKey.Some? {
      OuterLayerIsAdditionalKey(kit, sender, message, nonce, outerNonce);
    }
    SessionCiphers.MirroredRoundTrip(kit, a, b, message, nonce);
  }

  /** A receiver holding a different second key fails with
   *  `decryptionFailed`, whatever its session cipher. */
  lemma OtherAdditionalKeyFails(kit: Provider, sender: MessageEncryptor, receiver: MessageEncryptor,
                                message: Bytes, nonce: Bytes, outerNonce: Bytes)
    requires SealOpenRoundTrip(kit) && OpenRejectsOtherKeys(kit)
    requires sender.additionalKey.Some? && receiver.additionalKey.Some?
    requires receiver.additionalKey != sender.additionalKey
    requires sender.Encrypt(kit, message, nonce, outerNonce).Ok?
    ensures receiver.Decrypt(kit, sender.Encrypt(kit, message, nonce, outerNonce).value) == Err(X3DH(DecryptionFailed))
  {
    var inner := sender.sessionCipher.Encrypt(kit, message, nonce).value;
    AEADEncryptor.OtherKeyFails(kit, inner, sender.additionalKey.value, receiver.additionalKey.value, outerNonce);
  }
}
