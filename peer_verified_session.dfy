/** The forward-mode facade as its documentation and error names describe it:
 *  the receiver verifies an ephemeral key against the SENDER's signing public
 *  key, supplied when the session is built, and throws
 *  `missingSigningPublicKey` when it has none. Everything else is the facade
 *  of `Sessions` unchanged; in particular encryption is the wrapped
 *  session's `Encrypt`. */
module PeerVerifiedSessions {
  import opened Wrappers
  import opened Errors
  import opened Primitives
  import opened ForwardSecrecyCiphers
  import opened EncryptedMessages
  import Sessions

  datatype PeerVerifiedSession = PeerVerifiedSession(session: Sessions.X3DHSession, peerSigningKey: Option<SigningPublicKey>) {

    /** As `Sessions.X3DHSession.Decrypt`, except that a forward message is
     *  verified against the peer's signing public key. */
    function Decrypt(kit: Provider, message: EncryptedMessage): (r: Result<Bytes, Thrown>)
      ensures message.Session? ==> r == session.Decrypt(kit, message)
      ensures message.Forward? && session.forwardCipher.None? ==> r == Err(X3DH(InvalidSessionConfiguration))
      ensures message.Forward? && session.forwardCipher.Some? && peerSigningKey.None? ==> r == Err(X3DH(MissingSigningPublicKey))
      ensures message.Forward? && session.forwardCipher.Some? && peerSigningKey.Some? ==>
        r == session.forwardCipher.value.Decrypt(kit, message.ciphertext, message.ephemeralPublicKey, message.signature,
                                                 peerSigningKey.value)
    {
      match message
      case Session(_) => session.Decrypt(kit, message)
      case Forward(ciphertext, ephemeralKey, signature) =>
        if session.forwardCipher.None? then Err(X3DH(InvalidSessionConfiguration))
        else if peerSigningKey.None? then Err(X3DH(MissingSigningPublicKey))
        else session.forwardCipher.value.Decrypt(kit, ciphertext, ephemeralKey, signature, peerSigningKey.value)
    }
  }

  /** A forward session that also knows the peer's signing public key. */
  function ForwardSecrecy(myIdentityKey: PrivateKey, theirIdentityKey: PublicKey, signingKey: SigningPrivateKey,
                          theirSigningKey: SigningPublicKey): (s: PeerVerifiedSession)
    ensures s.session == Sessions.ForwardSecrecy(myIdentityKey, theirIdentityKey, signingKey)
    ensures s.peerSigningKey == Some(theirSigningKey)
  {
    PeerVerifiedSession(Sessions.ForwardSecrecy(myIdentityKey, theirIdentityKey, signingKey), Some(theirSigningKey))
  }

  /** Two parties with their own identity and signing keys round-trip any
   *  message in forward mode. */
  lemma ForwardModeRoundTrip(kit: Provider, a: PrivateKey, b: PrivateKey, signingKeyA: SigningPrivateKey,
                             signingKeyB: SigningPrivateKey, message: Bytes, random: Sessions.Randomness)
    requires AgreementIsSymmetric(kit) && SealOpenRoundTrip(kit) && SignatureVerifies(kit)
    requires ForwardSecrecy(a, kit.publicKey(b), signingKeyA, kit.signingPublicKey(signingKeyB)).session.Encrypt(kit, message, random).Ok?
    ensures
      var alice := ForwardSecrecy(a, kit.publicKey(b), signingKeyA, kit.signingPublicKey(signingKeyB));
      var bob := ForwardSecrecy(b, kit.publicKey(a), signingKeyB, kit.signingPublicKey(signingKeyA));
      bob.Decrypt(kit, alice.session.Encrypt(kit, message, random).value) == Ok(message)
  {
    ForwardSecrecyCiphers.RoundTrip(kit, a, b, kit.publicKey(a), message, signingKeyA, random.ephemeralPrivateKey, random.nonce);
  }

  /** A message whose ephemeral key was signed by anyone but the expected peer
   *  is refused with `invalidSignature`. */
  lemma ImpostorRejected(kit: Provider, a: PrivateKey, b: PrivateKey, impostorKey: SigningPrivateKey,
                         signingKeyB: SigningPrivateKey, expected: SigningPublicKey, message: Bytes, random: Sessions.Randomness)
    requires SignatureBindsSigner(kit)
    requires expected != kit.signingPublicKey(impostorKey)
    requires Sessions.ForwardSecrecy(a, kit.publicKey(b), impostorKey).Encrypt(kit, message, random).Ok?
    ensures
      var sent := Sessions.ForwardSecrecy(a, kit.publicKey(b), impostorKey).Encrypt(kit, message, random).value;
      ForwardSecrecy(b, kit.publicKey(a), signingKeyB, expected).Decrypt(kit, sent) == Err(X3DH(InvalidSignature))
  {
  }
}
