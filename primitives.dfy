/** The cryptographic library the SDK delegates to: Curve25519 key agreement,
 *  HKDF over SHA-256, ChaCha20-Poly1305 and Ed25519 signatures. Its
 *  operations are a record of functions, `Provider`, and what the SDK relies
 *  on them to do is stated as laws about that record. Every lemma of the model
 *  names the laws it needs; `SymbolicProvider` exhibits a provider obeying all
 *  of them. */
module Primitives {
  import opened Wrappers
  import opened Errors

  type Bytes = seq<bv8>

  /** Key material, each wrapping its raw representation. */
  datatype PrivateKey = PrivateKey(raw: Bytes)
  datatype PublicKey = PublicKey(raw: Bytes)
  datatype SigningPrivateKey = SigningPrivateKey(raw: Bytes)
  datatype SigningPublicKey = SigningPublicKey(raw: Bytes)
  datatype SharedSecret = SharedSecret(bytes: Bytes)
  datatype SymmetricKey = SymmetricKey(bytes: Bytes)

  /** A ChaCha20-Poly1305 sealed box before it is flattened to its combined form. */
  datatype SealedBox = SealedBox(nonce: Bytes, ciphertext: Bytes, tag: Bytes)

  /** The library operations the SDK calls. */
  datatype Provider = Provider(
    // Curve25519.KeyAgreement: the public half of a private key, and the
    // Diffie-Hellman agreement (which can throw)
    publicKey: PrivateKey -> PublicKey,
    sharedSecret: (PrivateKey, PublicKey) -> Result<SharedSecret, CryptoKitError>,
    // HKDF<SHA256>: input key material, salt, info, output byte count
    hkdf: (Bytes, Bytes, Bytes, nat) -> Bytes,
    // ChaChaPoly.seal(plaintext, using: key) with its nonce made explicit:
    // key, nonce, plaintext
    seal: (SymmetricKey, Bytes, Bytes) -> Result<SealedBox, CryptoKitError>,
    // SealedBox.combined and SealedBox(combined:)
    combined: SealedBox -> Bytes,
    sealedBox: Bytes -> Result<SealedBox, CryptoKitError>,
    // ChaChaPoly.open(box, using: key)
    open: (SealedBox, SymmetricKey) -> Result<Bytes, CryptoKitError>,
    // Curve25519.Signing: the public half, signing, and verification
    // (verification that throws counts as a failed verification)
    signingPublicKey: SigningPrivateKey -> SigningPublicKey,
    sign: (SigningPrivateKey, Bytes) -> Result<Bytes, CryptoKitError>,
    isValidSignature: (SigningPublicKey, Bytes, Bytes) -> bool
  )

  /** The largest output HKDF-SHA256 can produce (section 2.3 of RFC 5869). */
  const MaxHkdfOutput: nat := 255 * 32

  /** Diffie-Hellman: each side's private key against the other's public key
   *  gives the same result. */
  ghost predicate AgreementIsSymmetric(kit: Provider) {
    forall a: PrivateKey, b: PrivateKey ::
      kit.sharedSecret(a, kit.publicKey(b)) == kit.sharedSecret(b, kit.publicKey(a))
  }

  /** HKDF returns exactly the number of bytes asked for. */
  ghost predicate HkdfHasRequestedLength(kit: Provider) {
    forall ikm: Bytes, salt: Bytes, info: Bytes, count: nat ::
      count <= MaxHkdfOutput ==> |kit.hkdf(ikm, salt, info, count)| == count
  }

  /** A box that was sealed survives flattening, and opens under its own key
   *  to the plaintext that was sealed. */
  ghost predicate SealOpenRoundTrip(kit: Provider) {
    forall key: SymmetricKey, nonce: Bytes, plaintext: Bytes ::
      kit.seal(key, nonce, plaintext).Ok? ==>
        && kit.sealedBox(kit.combined(kit.seal(key, nonce, plaintext).value)) == Ok(kit.seal(key, nonce, plaintext).value)
        && kit.open(kit.seal(key, nonce, plaintext).value, key) == Ok(plaintext)
  }

  /** Authentication: a sealed box does not open under any other key. */
  ghost predicate OpenRejectsOtherKeys(kit: Provider) {
    forall key: SymmetricKey, other: SymmetricKey, nonce: Bytes, plaintext: Bytes ::
      kit.seal(key, nonce, plaintext).Ok? && other != key ==>
        kit.open(kit.seal(key, nonce, plaintext).value, other).Err?
  }

  /** A signature verifies under the signer's public key for the signed data. */
  ghost predicate SignatureVerifies(kit: Provider) {
    forall signer: SigningPrivateKey, data: Bytes ::
      kit.sign(signer, data).Ok? ==>
        kit.isValidSignature(kit.signingPublicKey(signer), kit.sign(signer, data).value, data)
  }

  /** A signature does not verify for data other than what was signed. */
  ghost predicate SignatureBindsData(kit: Provider) {
    forall signer: SigningPrivateKey, data: Bytes, other: Bytes ::
      kit.sign(signer, data).Ok? && other != data ==>
        !kit.isValidSignature(kit.signingPublicKey(signer), kit.sign(signer, data).value, other)
  }

  /** A signature does not verify under any public key but the signer's. */
  ghost predicate SignatureBindsSigner(kit: Provider) {
    forall signer: SigningPrivateKey, data: Bytes, verifier: SigningPublicKey ::
      kit.sign(signer, data).Ok? && verifier != kit.signingPublicKey(signer) ==>
        !kit.isValidSignature(verifier, kit.sign(signer, data).value, data)
  }

  /** Every law at once. */
  ghost predicate Sound(kit: Provider) {
    && AgreementIsSymmetric(kit)
    && HkdfHasRequestedLength(kit)
    && SealOpenRoundTrip(kit)
    && OpenRejectsOtherKeys(kit)
    && SignatureVerifies(kit)
    && SignatureBindsData(kit)
    && SignatureBindsSigner(kit)
  }
}
