/** A concrete provider that obeys every law of `Primitives`, so no lemma that
 *  assumes those laws assumes something impossible. It is a functional
 *  stand-in, not a secure one: the "cipher" masks the plaintext with the key
 *  and carries the key as its tag, a "signature" is the signer's key followed
 *  by the data, and the "agreement" combines both keys byte by byte. */
module SymbolicProvider {
  import opened Wrappers
  import opened Errors
  import opened Primitives
  import KeyDerivation

  const NonceByteCount: nat := 12

  /** `data` with each byte XOR-ed with the pad, repeated as needed. */
  function Mask(data: Bytes, pad: Bytes): (masked: Bytes)
    requires |pad| > 0
    ensures |masked| == |data|
  {
    seq(|data|, i requires 0 <= i < |data| => data[i] ^ pad[i % |pad|])
  }

  lemma MaskTwiceIsIdentity(data: Bytes, pad: Bytes)
    requires |pad| > 0
    ensures Mask(Mask(data, pad), pad) == data
  {
  }

  /** Byte-wise XOR of the common prefix of two byte strings. */
  function Combine(x: Bytes, y: Bytes): (c: Bytes)
    ensures |c| == if |x| < |y| then |x| else |y|
  {
    var n := if |x| < |y| then |x| else |y|;
    seq(n, i requires 0 <= i < n => x[i] ^ y[i])
  }

  lemma CombineCommutes(x: Bytes, y: Bytes)
    ensures Combine(x, y) == Combine(y, x)
  {
  }

  function Seal(key: SymmetricKey, nonce: Bytes, plaintext: Bytes): Result<SealedBox, CryptoKitError> {
    if |key.bytes| != KeyDerivation.KeyByteCount then Err(IncorrectKeySize)
    else if |nonce| != NonceByteCount then Err(IncorrectParameterSize)
    else Ok(SealedBox(nonce, Mask(plaintext, key.bytes), key.bytes))
  }

  function Open(box: SealedBox, key: SymmetricKey): Result<Bytes, CryptoKitError> {
    if |key.bytes| != KeyDerivation.KeyByteCount then Err(IncorrectKeySize)
    else if box.tag != key.bytes then Err(AuthenticationFailure)
    else Ok(Mask(box.ciphertext, key.bytes))
  }

  function Combined(box: SealedBox): Bytes {
    box.nonce + box.ciphertext + box.tag
  }

  function ParseCombined(blob: Bytes): Result<SealedBox, CryptoKitError> {
    if |blob| < NonceByteCount + KeyDerivation.KeyByteCount then Err(IncorrectParameterSize)
    else Ok(SealedBox(blob[..NonceByteCount], blob[NonceByteCount..|blob| - KeyDerivation.KeyByteCount], blob[|blob| - KeyDerivation.KeyByteCount..]))
  }

  function Hkdf(ikm: Bytes, salt: Bytes, info: Bytes, count: nat): Bytes {
    seq(count, i requires 0 <= i < count => if i < |ikm| then ikm[i] else 0)
  }

  function Sign(signer: SigningPrivateKey, data: Bytes): Result<Bytes, CryptoKitError> {
    Ok(signer.raw + data)
  }

  function IsValidSignature(verifier: SigningPublicKey, signature: Bytes, data: Bytes): bool {
    signature == verifier.raw + data
  }

  function Symbolic(): Provider {
    Provider(
      (k: PrivateKey) => PublicKey(k.raw),
      (k: PrivateKey, peer: PublicKey) => Ok(SharedSecret(Combine(k.raw, peer.raw))),
      Hkdf,
      Seal,
      Combined,
      ParseCombined,
      Open,
      (s: SigningPrivateKey) => SigningPublicKey(s.raw),
      Sign,
      IsValidSignature)
  }

  lemma SealedBoxSurvivesFlattening(key: SymmetricKey, nonce: Bytes, plaintext: Bytes)
    requires Seal(key, nonce, plaintext).Ok?
    ensures ParseCombined(Combined(Seal(key, nonce, plaintext).value)) == Ok(Seal(key, nonce, plaintext).value)
  {
    var box := Seal(key, nonce, plaintext).value;
    var blob := Combined(box);
    assert blob[..NonceByteCount] == box.nonce;
    assert blob[NonceByteCount..|blob| - KeyDerivation.KeyByteCount] == box.ciphertext;
    assert blob[|blob| - KeyDerivation.KeyByteCount..] == box.tag;
  }

  lemma AppendCancels(x: Bytes, y: Bytes, d: Bytes, e: Bytes)
    requires x + d == y + e
    ensures |x| == |y| ==> x == y && d == e
    ensures d == e ==> x == y
  {
    if |x| == |y| {
      assert x == (x + d)[..|x|] && y == (y + e)[..|y|];
      assert d == (x + d)[|x|..] && e == (y + e)[|y|..];
    }
    if d == e {
      assert |x| == |y|;
      assert x == (x + d)[..|x|] && y == (y + e)[..|y|];
    }
  }

  lemma SymbolicIsSound()
    ensures Sound(Symbolic())
  {
    var kit := Symbolic();
    forall a: PrivateKey, b: PrivateKey
      ensures kit.sharedSecret(a, kit.publicKey(b)) == kit.sharedSecret(b, kit.publicKey(a))
    {
      CombineCommutes(a.raw, b.raw);
    }
    forall key: SymmetricKey, nonce: Bytes, plaintext: Bytes | kit.seal(key, nonce, plaintext).Ok?
      ensures kit.sealedBox(kit.combined(kit.seal(key, nonce, plaintext).value)) == Ok(kit.seal(key, nonce, plaintext).value)
      ensures kit.open(kit.seal(key, nonce, plaintext).value, key) == Ok(plaintext)
    {
      SealedBoxSurvivesFlattening(key, nonce, plaintext);
      MaskTwiceIsIdentity(plaintext, key.bytes);
    }
    forall signer: SigningPrivateKey, data: Bytes, other: Bytes | kit.sign(signer, data).Ok? && other != data
      ensures !kit.isValidSignature(kit.signingPublicKey(signer), kit.sign(signer, data).value, other)
    {
      if signer.raw + data == signer.raw + other {
        AppendCancels(signer.raw, signer.raw, data, other);
      }
    }
    forall signer: SigningPrivateKey, data: Bytes, verifier: SigningPublicKey | kit.sign(signer, data).Ok? && verifier != kit.signingPublicKey(signer)
      ensures !kit.isValidSignature(verifier, kit.sign(signer, data).value, data)
    {
      if signer.raw + data == verifier.raw + data {
        AppendCancels(signer.raw, verifier.raw, data, data);
      }
    }
  }
}
