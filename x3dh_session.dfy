/** Sources/X3DHSDK/Public/X3DHSession.swift: the public facade. A session
 *  holds optional ciphers and an optional signing key; `encrypt` dispatches on
 *  which cipher is present and `decrypt` on the message's tag. */
module Sessions {
  import opened Wrappers
  import opened Errors
  import opened Primitives
  import opened SessionCiphers
  import opened ForwardSecrecyCiphers
  import opened EncryptedMessages

  /** The random values one `encrypt` call consumes: the AEAD nonce and, in
   *  forward mode, the ephemeral private key. */
  datatype Randomness = Randomness(nonce: Bytes, ephemeralPrivateKey: PrivateKey)

  datatype X3DHSession = X3DHSession(
    sessionCipher: Option<SessionCipher>,
    forwardCipher: Option<ForwardSecrecySessionCipher>,
    signingKey: Option<SigningPrivateKey>)
  {
    /** The static cipher, when present, wins; otherwise forward mode needs
     *  both the forward cipher and the signing key; otherwise
     *  `invalidSessionConfiguration`. A cipher's error is rethrown as it is. */
    function Encrypt(kit: Provider, message: Bytes, random: Randomness): (r: Result<EncryptedMessage, Thrown>)
      ensures sessionCipher.Some? ==>
        match sessionCipher.value.Encrypt(kit, message, random.nonce)
        case Ok(ciphertext) => r == Ok(Session(ciphertext))
        case Err(e) => r == Err(e)
      ensures sessionCipher.None? && forwardCipher.Some? && signingKey.Some? ==>
        match forwardCipher.value.Encrypt(kit, message, signingKey.value, random.ephemeralPrivateKey, random.nonce)
        case Ok(p) => r == Ok(Forward(p.ciphertext, p.ephemeralPublicKey, p.signature))
        case Err(e) => r == Err(e)
      ensures sessionCipher.None? && (forwardCipher.None? || signingKey.None?) ==>
        r == Err(X3DH(InvalidSessionConfiguration))
    {
      if sessionCipher.Some? then
        match sessionCipher.value.Encrypt(kit, message, random.nonce)
        case Ok(encrypted) => Ok(Session(encrypted))
        case Err(e) => Err(e)
      else if forwardCipher.Some? && signingKey.Some? then
        match forwardCipher.value.Encrypt(kit, message, signingKey.value, random.ephemeralPrivateKey, random.nonce)
        case Ok(p) => Ok(Forward(p.ciphertext, p.ephemeralPublicKey, p.signature))
        case Err(e) => Err(e)
      else
        Err(X3DH(InvalidSessionConfiguration))
    }

    /** A session message needs the static cipher. A forward message needs the
     *  forward cipher, checked first, and then the signing key, whose public
     *  half is what the signature is verified against. A cipher's error is
     *  rethrown as it is. */
    function Decrypt(kit: Provider, message: EncryptedMessage): (r: Result<Bytes, Thrown>)
      ensures message.Session? && sessionCipher.None? ==> r == Err(X3DH(InvalidSessionConfiguration))
      ensures message.Session? && sessionCipher.Some? ==> r == sessionCipher.value.Decrypt(kit, message.ciphertext)
      ensures message.Forward? && forwardCipher.None? ==> r == Err(X3DH(InvalidSessionConfiguration))
      ensures message.Forward? && forwardCipher.Some? && signingKey.None? ==> r == Err(X3DH(MissingSigningPublicKey))
      ensures message.Forward? && forwardCipher.Some? && signingKey.Some? ==>
        r == forwardCipher.value.Decrypt(kit, message.ciphertext, message.ephemeralPublicKey, message.signature,
                                         kit.signingPublicKey(signingKey.value))
    {
      match message
      case Session(ciphertext) =>
        if sessionCipher.None? then Err(X3DH(InvalidSessionConfiguration))
        else sessionCipher.value.Decrypt(kit, ciphertext)
      case Forward(ciphertext, ephemeralKey, signature) =>
        if forwardCipher.None? then Err(X3DH(InvalidSessionConfiguration))
        else if signingKey.None? then Err(X3DH(MissingSigningPublicKey))
        else forwardCipher.value.Decrypt(kit, ciphertext, ephemeralKey, signature, kit.signingPublicKey(signingKey.value))
    }
  }

  /** `sessionBased`: only a static cipher. The second-layer key it is given
   *  is accepted and not used. */
  function SessionBased(myPrivateKey: PrivateKey, theirPublicKey: PublicKey, additionalKey: Option<SymmetricKey>): (s: X3DHSession)
    ensures s.sessionCipher == Some(SessionCipher(myPrivateKey, theirPublicKey))
    ensures s.forwardCipher.None? && s.signingKey.None?
  {
    X3DHSession(Some(SessionCipher(myPrivateKey, theirPublicKey)), None, None)
  }

  /** `forwardSecrecy`: a forward cipher and the local signing key, no static cipher. */
  function ForwardSecrecy(myIdentityKey: PrivateKey, theirIdentityKey: PublicKey, signingKey: SigningPrivateKey): (s: X3DHSession)
    ensures s.sessionCipher.None?
    ensures s.forwardCipher == Some(ForwardSecrecySessionCipher(myIdentityKey, theirIdentityKey))
    ensures s.signingKey == Some(signingKey)
  {
    X3DHSession(None, Some(ForwardSecrecySessionCipher(myIdentityKey, theirIdentityKey)), Some(signingKey))
  }

  /** The second-layer key passed to `sessionBased` makes no difference to the session. */
  lemma AdditionalKeyIsIgnored(myPrivateKey: PrivateKey, theirPublicKey: PublicKey, k1: Option<SymmetricKey>, k2: Option<SymmetricKey>)
    ensures SessionBased(myPrivateKey, theirPublicKey, k1) == SessionBased(myPrivateKey, theirPublicKey, k2)
  {
  }

  /** A static session only ever produces session messages, and refuses every
   *  forward message with `invalidSessionConfiguration`. */
  lemma StaticModeIsolation(kit: Provider, myPrivateKey: PrivateKey, theirPublicKey: PublicKey, additionalKey: Option<SymmetricKey>,
                            message: Bytes, random: Randomness, incoming: EncryptedMessage)
    requires incoming.Forward?
    ensures var s := SessionBased(myPrivateKey, theirPublicKey, additionalKey);
      && (s.Encrypt(kit, message, random).Ok? ==> s.Encrypt(kit, message, random).value.Session?)
      && s.Decrypt(kit, incoming) == Err(X3DH(InvalidSessionConfiguration))
  {
  }

  /** A forward session only ever produces forward messages, and refuses every
   *  session message with `invalidSessionConfiguration`. */
  lemma ForwardModeIsolation(kit: Provider, myIdentityKey: PrivateKey, theirIdentityKey: PublicKey, signingKey: SigningPrivateKey,
                             message: Bytes, random: Randomness, incoming: EncryptedMessage)
    requires incoming.Session?
    ensures var s := ForwardSecrecy(myIdentityKey, theirIdentityKey, signingKey);
      && (s.Encrypt(kit, message, random).Ok? ==> s.Encrypt(kit, message, random).value.Forward?)
      && s.Decrypt(kit, incoming) == Err(X3DH(InvalidSessionConfiguration))
  {
  }

  /** Two static sessions built on each other's public keys round-trip any
   *  message, whatever second-layer keys they were given. */
  lemma StaticModeRoundTrip(kit: Provider, a: PrivateKey, b: PrivateKey, keyA: Option<SymmetricKey>, keyB: Option<SymmetricKey>,
                            message: Bytes, random: Randomness)
    requires AgreementIsSymmetric(kit) && SealOpenRoundTrip(kit)
    requires SessionBased(a, kit.publicKey(b), keyA).Encrypt(kit, message, random).Ok?
    ensures SessionBased(b, kit.publicKey(a), keyB).Decrypt(kit, SessionBased(a, kit.publicKey(b), keyA).Encrypt(kit, message, random).value)
         == Ok(message)
  {
    SessionCiphers.MirroredRoundTrip(kit, a, b, message, random.nonce);
  }

  /** Two forward sessions round-trip a message when they hold the same
   *  signing key: the receiver verifies against its own signing key's public
   *  half. */
  lemma ForwardModeRoundTripSharedSigningKey(kit: Provider, a: PrivateKey, b: PrivateKey, signingKey: SigningPrivateKey,
                                             message: Bytes, random: Randomness)
    requires AgreementIsSymmetric(kit) && SealOpenRoundTrip(kit) && SignatureVerifies(kit)
    requires ForwardSecrecy(a, kit.publicKey(b), signingKey).Encrypt(kit, message, random).Ok?
    ensures ForwardSecrecy(b, kit.publicKey(a), signingKey).Decrypt(kit, ForwardSecrecy(a, kit.publicKey(b), signingKey).Encrypt(kit, message, random).value)
         == Ok(message)
  {
    ForwardSecrecyCiphers.RoundTrip(kit, a, b, kit.publicKey(a), message, signingKey, random.ephemeralPrivateKey, random.nonce);
  }

  /** As written, two forward sessions whose signing keys differ can never
   *  read each other's messages: the receiver checks the sender's signature
   *  against the receiver's own signing key and throws `invalidSignature`. */
  lemma ForwardModeRejectsPeerSignatures(kit: Provider, a: PrivateKey, b: PrivateKey, signingKeyA: SigningPrivateKey,
                                         signingKeyB: SigningPrivateKey, message: Bytes, random: Randomness)
    requires SignatureBindsSigner(kit)
    requires kit.signingPublicKey(signingKeyA) != kit.signingPublicKey(signingKeyB)
    requires ForwardSecrecy(a, kit.publicKey(b), signingKeyA).Encrypt(kit, message, random).Ok?
    ensures ForwardSecrecy(b, kit.publicKey(a), signingKeyB).Decrypt(kit, ForwardSecrecy(a, kit.publicKey(b), signingKeyA).Encrypt(kit, message, random).value)
         == Err(X3DH(InvalidSignature))
  {
  }
}
