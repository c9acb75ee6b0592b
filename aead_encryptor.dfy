/** Sources/X3DHSDK/Crypto/AEADEncryptor.swift: ChaCha20-Poly1305 over the
 *  combined sealed box (nonce, ciphertext and tag in one blob), with every
 *  library failure replaced by one SDK error per direction. */
module AEADEncryptor {
  import opened Wrappers
  import opened Errors
  import opened Primitives

  /** Seals `plaintext` under `key` with the given nonce and flattens the box.
   *  Any sealing failure is thrown as `encodingError`. */
  function Encrypt(kit: Provider, plaintext: Bytes, key: SymmetricKey, nonce: Bytes): (r: Result<Bytes, Thrown>)
    ensures r.Ok? <==> kit.seal(key, nonce, plaintext).Ok?
    ensures r.Err? ==> r.error == X3DH(EncodingError)
  {
    match kit.seal(key, nonce, plaintext)
    case Ok(box) => Ok(kit.combined(box))
    case Err(_) => Err(X3DH(EncodingError))
  }

  /** Rebuilds the box from the combined blob and opens it. A blob that does
   *  not parse and a box that does not authenticate both give
   *  `decryptionFailed`: the caller cannot tell which happened. */
  function Decrypt(kit: Provider, ciphertext: Bytes, key: SymmetricKey): (r: Result<Bytes, Thrown>)
    ensures r.Err? <==> kit.sealedBox(ciphertext).Err? || kit.open(kit.sealedBox(ciphertext).value, key).Err?
    ensures r.Err? ==> r.error == X3DH(DecryptionFailed)
  {
    match kit.sealedBox(ciphertext)
    case Err(_) => Err(X3DH(DecryptionFailed))
    case Ok(box) =>
      match kit.open(box, key)
      case Ok(plaintext) => Ok(plaintext)
      case Err(_) => Err(X3DH(DecryptionFailed))
  }

  /** Decrypting with the key that encrypted returns the plaintext. */
  lemma RoundTrip(kit: Provider, plaintext: Bytes, key: SymmetricKey, nonce: Bytes)
    requires SealOpenRoundTrip(kit)
    requires Encrypt(kit, plaintext, key, nonce).Ok?
    ensures Decrypt(kit, Encrypt(kit, plaintext, key, nonce).value, key) == Ok(plaintext)
  {
  }

  /** Decrypting with any other key fails, with `decryptionFailed`. */
  lemma OtherKeyFails(kit: Provider, plaintext: Bytes, key: SymmetricKey, other: SymmetricKey, nonce: Bytes)
    requires SealOpenRoundTrip(kit) && OpenRejectsOtherKeys(kit)
    requires Encrypt(kit, plaintext, key, nonce).Ok?
    requires other != key
    ensures Decrypt(kit, Encrypt(kit, plaintext, key, nonce).value, other) == Err(X3DH(DecryptionFailed))
  {
  }
}
