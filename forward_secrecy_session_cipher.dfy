/** Sources/X3DHSDK/Crypto/ForwardSecrecySessionCipher.swift: one ephemeral
 *  key pair per message, agreed against the peer's identity key; the
 *  ephemeral public key travels signed with the sender's signing key, and the
 *  receiver checks that signature before using the key. */
module ForwardSecrecyCiphers {
  import opened Wrappers
  import opened Errors
  import opened Primitives
  import KeyDerivation
  import AEADEncryptor

  /** What `encrypt` returns, in its order: ciphertext, ephemeral public key, signature. */
  datatype ForwardPayload = ForwardPayload(ciphertext: Bytes, ephemeralPublicKey: PublicKey, signature: Bytes)

  datatype ForwardSecrecySessionCipher = ForwardSecrecySessionCipher(myIdentityKey: PrivateKey, theirIdentityPublicKey: PublicKey) {

    /** Encrypts `message` for the peer. The ephemeral private key and the
     *  AEAD nonce, which the SDK draws at random, are parameters here. Any
     *  failure, of the agreement, the sealing or the signing, is thrown as
     *  `encodingError`. */
    function Encrypt(kit: Provider, message: Bytes, signingKey: SigningPrivateKey, ephemeralPrivateKey: PrivateKey, nonce: Bytes)
      : (r: Result<ForwardPayload, Thrown>)
      ensures r.Err? ==> r.error == X3DH(EncodingError)
      ensures r.Ok? <==>
        && kit.sharedSecret(ephemeralPrivateKey, theirIdentityPublicKey).Ok?
        && AEADEncryptor.Encrypt(kit, message, KeyDerivation.DeriveSymmetricKey(kit, kit.sharedSecret(ephemeralPrivateKey, theirIdentityPublicKey).value), nonce).Ok?
        && kit.sign(signingKey, kit.publicKey(ephemeralPrivateKey).raw).Ok?
      // the ciphertext is the message sealed under the key derived from the
      // ephemeral agreement with the peer's identity key
      ensures r.Ok? ==>
        AEADEncryptor.Encrypt(kit, message, KeyDerivation.DeriveSymmetricKey(kit, kit.sharedSecret(ephemeralPrivateKey, theirIdentityPublicKey).value), nonce)
        == Ok(r.value.ciphertext)
      // the key sent is the ephemeral public key, and the signature is over its raw bytes
      ensures r.Ok? ==> r.value.ephemeralPublicKey == kit.publicKey(ephemeralPrivateKey)
      ensures r.Ok? ==> kit.sign(signingKey, r.value.ephemeralPublicKey.raw) == Ok(r.value.signature)
    {
      var ephemeralPublicKey := kit.publicKey(ephemeralPrivateKey);
      match kit.sharedSecret(ephemeralPrivateKey, theirIdentityPublicKey)
      case Err(_) => Err(X3DH(EncodingError))
      case Ok(secret) =>
        match AEADEncryptor.Encrypt(kit, message, KeyDerivation.DeriveSymmetricKey(kit, secret), nonce)
        case Err(_) => Err(X3DH(EncodingError))
        case Ok(ciphertext) =>
          match kit.sign(signingKey, ephemeralPublicKey.raw)
          case Err(_) => Err(X3DH(EncodingError))
          case Ok(signature) => Ok(ForwardPayload(ciphertext, ephemeralPublicKey, signature))
    }

    /** Decrypts a message from the peer. The signature over the ephemeral
     *  key's raw bytes is checked first; only a verified key is agreed with.
     *  An agreement failure is not caught and reaches the caller as the
     *  library's own error; an AEAD failure is `decryptionFailed`. */
    function Decrypt(kit: Provider, ciphertext: Bytes, senderEphemeralPublicKey: PublicKey, signature: Bytes,
                     senderSigningPublicKey: SigningPublicKey): (r: Result<Bytes, Thrown>)
      ensures !kit.isValidSignature(senderSigningPublicKey, signature, senderEphemeralPublicKey.raw) ==>
        r == Err(X3DH(InvalidSignature))
      ensures kit.isValidSignature(senderSigningPublicKey, signature, senderEphemeralPublicKey.raw) ==>
        match kit.sharedSecret(myIdentityKey, senderEphemeralPublicKey)
        case Err(cause) => r == Err(Foreign(cause))
        case Ok(secret) => r == AEADEncryptor.Decrypt(kit, ciphertext, KeyDerivation.DeriveSymmetricKey(kit, secret))
      ensures r.Err? ==> r.error in {X3DH(InvalidSignature), X3DH(DecryptionFailed)} || r.error.Foreign?
    {
      if !kit.isValidSignature(senderSigningPublicKey, signature, senderEphemeralPublicKey.raw) then
        Err(X3DH(InvalidSignature))
      else
        match kit.sharedSecret(myIdentityKey, senderEphemeralPublicKey)
        case Err(cause) => Err(Foreign(cause))
        case Ok(secret) => AEADEncryptor.Decrypt(kit, ciphertext, KeyDerivation.DeriveSymmetricKey(kit, secret))
    }
  }

  /** When the signature does not verify, nothing the agreement, derivation or
   *  AEAD primitives would do matters: any two providers with the same
   *  verification give the same `invalidSignature`. */
  lemma VerificationPrecedesAgreement(kit: Provider, other: Provider, cipher: ForwardSecrecySessionCipher,
                                      ciphertext: Bytes, ephemeral: PublicKey, signature: Bytes, verifier: SigningPublicKey)
    requires other.isValidSignature == kit.isValidSignature
    requires !kit.isValidSignature(verifier, signature, ephemeral.raw)
    ensures cipher.Decrypt(kit, ciphertext, ephemeral, signature, verifier)
         == cipher.Decrypt(other, ciphertext, ephemeral, signature, verifier)
         == Err(X3DH(InvalidSignature))
  {
  }

  /** Encryption never uses the sender's own identity key. */
  lemma EncryptIgnoresOwnIdentityKey(kit: Provider, mine: PrivateKey, another: PrivateKey, theirs: PublicKey,
                                     message: Bytes, signingKey: SigningPrivateKey, ephemeral: PrivateKey, nonce: Bytes)
    ensures ForwardSecrecySessionCipher(mine, theirs).Encrypt(kit, message, signingKey, ephemeral, nonce)
         == ForwardSecrecySessionCipher(another, theirs).Encrypt(kit, message, signingKey, ephemeral, nonce)
  {
  }

  /** Decryption never uses the stored peer identity key. */
  lemma DecryptIgnoresPeerIdentityKey(kit: Provider, mine: PrivateKey, theirs: PublicKey, another: PublicKey,
                                      ciphertext: Bytes, ephemeral: PublicKey, signature: Bytes, verifier: SigningPublicKey)
    ensures ForwardSecrecySessionCipher(mine, theirs).Decrypt(kit, ciphertext, ephemeral, signature, verifier)
         == ForwardSecrecySessionCipher(mine, another).Decrypt(kit, ciphertext, ephemeral, signature, verifier)
  {
  }

  /** The receiver whose identity key the sender encrypted to, verifying with
   *  the sender's signing public key, recovers the message; its own stored
   *  peer key plays no part. */
  lemma RoundTrip(kit: Provider, a: PrivateKey, b: PrivateKey, anyPeerKey: PublicKey, message: Bytes,
                  signingKey: SigningPrivateKey, ephemeral: PrivateKey, nonce: Bytes)
    requires AgreementIsSymmetric(kit) && SealOpenRoundTrip(kit) && SignatureVerifies(kit)
    requires ForwardSecrecySessionCipher(a, kit.publicKey(b)).Encrypt(kit, message, signingKey, ephemeral, nonce).Ok?
    ensures var p := ForwardSecrecySessionCipher(a, kit.publicKey(b)).Encrypt(kit, message, signingKey, ephemeral, nonce).value;
      ForwardSecrecySessionCipher(b, anyPeerKey).Decrypt(kit, p.ciphertext, p.ephemeralPublicKey, p.signature, kit.signingPublicKey(signingKey))
      == Ok(message)
  {
    var secret := kit.sharedSecret(ephemeral, kit.publicKey(b)).value;
    assert kit.sharedSecret(b, kit.publicKey(ephemeral)) == Ok(secret);
    AEADEncryptor.RoundTrip(kit, message, KeyDerivation.DeriveSymmetricKey(kit, secret), nonce);
  }

  /** An ephemeral key substituted in transit, under the original signature,
   *  is rejected with `invalidSignature` before any agreement. */
  lemma SubstitutedEphemeralKeyRejected(kit: Provider, sender: ForwardSecrecySessionCipher, receiver: ForwardSecrecySessionCipher,
                                        message: Bytes, signingKey: SigningPrivateKey, ephemeral: PrivateKey, nonce: Bytes,
                                        substitute: PublicKey, anyCiphertext: Bytes)
    requires SignatureBindsData(kit)
    requires sender.Encrypt(kit, message, signingKey, ephemeral, nonce).Ok?
    requires substitute != sender.Encrypt(kit, message, signingKey, ephemeral, nonce).value.ephemeralPublicKey
    ensures var p := sender.Encrypt(kit, message, signingKey, ephemeral, nonce).value;
      receiver.Decrypt(kit, anyCiphertext, substitute, p.signature, kit.signingPublicKey(signingKey)) == Err(X3DH(InvalidSignature))
  {
  }

  /** A signature checked against any key other than the signer's public key
   *  is rejected with `invalidSignature`. */
  lemma OtherSignerRejected(kit: Provider, sender: ForwardSecrecySessionCipher, receiver: ForwardSecrecySessionCipher,
                            message: Bytes, signingKey: SigningPrivateKey, ephemeral: PrivateKey, nonce: Bytes,
                            verifier: SigningPublicKey)
    requires SignatureBindsSigner(kit)
    requires sender.Encrypt(kit, message, signingKey, ephemeral, nonce).Ok?
    requires verifier != kit.signingPublicKey(signingKey)
    ensures var p := sender.Encrypt(kit, message, signingKey, ephemeral, nonce).value;
      receiver.Decrypt(kit, p.ciphertext, p.ephemeralPublicKey, p.signature, verifier) == Err(X3DH(InvalidSignature))
  {
  }
}
