/** Sources/X3DHSDK/Crypto/KeyDerivation.swift: HKDF-SHA256 with a fixed salt,
 *  empty info and a 32-byte output, from a shared secret or from raw bytes. */
module KeyDerivation {
  import opened Primitives

  /** The salt's text, as written in the SDK. */
  const SaltText: string := "X3DHSDK-Salt"

  /** That text's UTF-8 bytes. */
  const Salt: Bytes := [0x58, 0x33, 0x44, 0x48, 0x53, 0x44, 0x4B, 0x2D, 0x53, 0x61, 0x6C, 0x74]

  /** The context information: none. */
  const SharedInfo: Bytes := []

  /** The length of every derived key, in bytes. */
  const KeyByteCount: nat := 32

  /** UTF-8 of a string of ASCII characters: one byte per character, of the same code. */
  ghost predicate IsAsciiEncodingOf(bytes: Bytes, text: string) {
    |bytes| == |text| && forall i :: 0 <= i < |text| ==> text[i] as int < 128 && bytes[i] as int == text[i] as int
  }

  lemma SaltIsUtf8OfSaltText()
    ensures IsAsciiEncodingOf(Salt, SaltText)
  {
  }

  /** `deriveSymmetricKey(data:)`: the data is the input key material. */
  function DeriveSymmetricKeyFromData(kit: Provider, data: Bytes): (key: SymmetricKey)
    ensures HkdfHasRequestedLength(kit) ==> |key.bytes| == KeyByteCount
  {
    SymmetricKey(kit.hkdf(data, Salt, SharedInfo, KeyByteCount))
  }

  /** `deriveSymmetricKey(sharedSecret:)`: the secret is the input key
   *  material, so the two overloads agree on the secret's bytes. */
  function DeriveSymmetricKey(kit: Provider, secret: SharedSecret): (key: SymmetricKey)
    ensures key == DeriveSymmetricKeyFromData(kit, secret.bytes)
    ensures HkdfHasRequestedLength(kit) ==> |key.bytes| == KeyByteCount
  {
    SymmetricKey(kit.hkdf(secret.bytes, Salt, SharedInfo, KeyByteCount))
  }

  /** Two parties that agree on each other's public key derive the same key. */
  lemma MirroredPartiesDeriveSameKey(kit: Provider, a: PrivateKey, b: PrivateKey)
    requires AgreementIsSymmetric(kit)
    requires kit.sharedSecret(a, kit.publicKey(b)).Ok?
    ensures kit.sharedSecret(b, kit.publicKey(a)).Ok?
    ensures DeriveSymmetricKey(kit, kit.sharedSecret(a, kit.publicKey(b)).value)
         == DeriveSymmetricKey(kit, kit.sharedSecret(b, kit.publicKey(a)).value)
  {
  }
}
