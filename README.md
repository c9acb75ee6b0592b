# X3DHSDK session layer in Dafny

This project models the protocol composition layer of X3DHSDK, a Swift library for end-to-end message encryption. It covers how Diffie-Hellman agreement, HKDF key derivation, ChaCha20-Poly1305 sealing and Ed25519 signatures are chained, and how every failure is mapped onto the SDK's error cases. It has two session modes:

- **static mode** (`SessionCipher`): one agreement between two long-term keys, then derive, then seal or open;
- **forward mode** (`ForwardSecrecySessionCipher`): a fresh ephemeral key per message, agreed against the peer's identity key. The ephemeral public key is signed, and the receiver verifies that signature before it uses the key.

Above these sit the layered `MessageEncryptor`, which adds an optional outer AEAD layer under a second key, and the `X3DHSession` facade. The facade holds optional ciphers and dispatches on which one is present (`encrypt`) or on the message's tag (`decrypt`).

Every Swift type in the core is an immutable struct, so each becomes a Dafny `datatype` whose methods are functions. Swift's `throws` becomes `Result<T, Thrown>`. `Thrown` is either one of the SDK's own `X3DHError` cases or a library error that was not caught and remapped.

The cryptographic library is not modelled. Its operations form a record of functions, `Primitives.Provider`. What the SDK relies on them to do is a set of named laws:

- agreement is symmetric;
- HKDF returns the requested length;
- a sealed box opens under its key and under no other key;
- a signature verifies for its signer and data and for nothing else.

Every lemma requires only the laws it uses. `SymbolicProvider.SymbolicIsSound` proves that one concrete (and deliberately insecure) provider obeys all the laws, so the laws are consistent.

Randomness is passed in as parameters:

- the AEAD nonce (`nonce`, `outerNonce`);
- the ephemeral private key (`ephemeralPrivateKey`, or `Randomness` at the facade).

Files, one module each: `wrappers.dfy`, `errors.dfy`, `primitives.dfy`, `symbolic_provider.dfy`, `key_derivation.dfy`, `aead_encryptor.dfy`, `session_cipher.dfy`, `forward_secrecy_session_cipher.dfy`, `message_encryptor.dfy`, `encrypted_message.dfy`, `x3dh_session.dfy`, `peer_verified_session.dfy`.

Behaviour of the Swift code worth noting:

- **Session construction.** `X3DHSession` is a struct of three optional fields (`Public/X3DHSession.swift:9-22`). Which mode a session is in is decided at run time by which field is present, and a session with none of them is representable; `encrypt` and `decrypt` then throw `invalidSessionConfiguration`.
- **Forward-mode agreement failure.** The doc comment of `ForwardSecrecySessionCipher.decrypt` lists only `invalidSignature` and `decryptionFailed` (`Crypto/ForwardSecrecySessionCipher.swift:53-54`), but a failed agreement is not caught (`Crypto/ForwardSecrecySessionCipher.swift:66`). It reaches the caller as the library's own error.
- **MessageEncryptor's inner cipher.** `MessageEncryptor` holds a static `SessionCipher` (`Messages/MessageEncryptor.swift:6`); it never wraps a forward cipher.
- **Key recomputation.** `SessionCipher` stores only the two keys (`Crypto/SessionCipher.swift:7-8`) and performs the agreement and the derivation again on every `encrypt` and `decrypt` call.
- **Forward-mode verification key.** The facade verifies forward messages against its own signing key (see Findings).
- **The two derivation overloads.** `deriveSymmetricKey(sharedSecret:)` calls CryptoKit's `hkdfDerivedSymmetricKey` and `deriveSymmetricKey(data:)` calls `HKDF.deriveKey` (`Crypto/KeyDerivation.swift:11-35`). The model takes both to be the same HKDF computation over the secret's bytes, so `KeyDerivation.DeriveSymmetricKey` agrees with `KeyDerivation.DeriveSymmetricKeyFromData` by construction. That agreement is a modelling assumption about the library, not a proved fact.

## Model

| member | source | states |
|---|---|---|
| KeyDerivation.DeriveSymmetricKey | Sources/X3DHSDK/Crypto/KeyDerivation.swift:11-18 | deriving from a shared secret equals deriving from the secret's bytes (the overloads agree, under the assumption that CryptoKit's two HKDF entry points compute the same function); the key is 32 bytes when HKDF honours the requested length |
| KeyDerivation.DeriveSymmetricKeyFromData | Sources/X3DHSDK/Crypto/KeyDerivation.swift:27-35 | the key is 32 bytes when HKDF honours the requested length; total, never throws |
| KeyDerivation.SaltIsUtf8OfSaltText | Sources/X3DHSDK/Crypto/KeyDerivation.swift:14 | the salt bytes both overloads pass are the UTF-8 encoding of "X3DHSDK-Salt" |
| KeyDerivation.MirroredPartiesDeriveSameKey | Tests/X3DHSDKTests/Keys/KeysIntegrationTests.swift:7-21 | two parties agreeing with each other's public key both succeed and derive the same symmetric key |
| AEADEncryptor.Encrypt | Sources/X3DHSDK/Crypto/AEADEncryptor.swift:14-21 | succeeds exactly when sealing does; every failure is `encodingError` |
| AEADEncryptor.Decrypt | Sources/X3DHSDK/Crypto/AEADEncryptor.swift:30-37 | fails exactly when the combined blob does not parse or the box does not open, and both causes give the same `decryptionFailed` |
| AEADEncryptor.RoundTrip | Tests/X3DHSDKTests/Crypto/AEADEncryptorTests.swift:7-18 | decrypting with the encrypting key returns the plaintext |
| AEADEncryptor.OtherKeyFails | Tests/X3DHSDKTests/Crypto/AEADEncryptorTests.swift:20-31 | decrypting with any other key fails with `decryptionFailed` |
| SessionCiphers.SessionCipher.Encrypt | Sources/X3DHSDK/Crypto/SessionCipher.swift:26-34 | succeeds exactly when the agreement and the sealing under the derived key do; every failure is `encodingError` |
| SessionCiphers.SessionCipher.Decrypt | Sources/X3DHSDK/Crypto/SessionCipher.swift:41-49 | a failed agreement gives `decryptionFailed`; otherwise it is the AEAD decryption under the recomputed derived key; every failure is `decryptionFailed` |
| SessionCiphers.MirroredCiphersShareKey | Sources/X3DHSDK/Crypto/SessionCipher.swift:28-44 | the ciphers (A-private, B-public) and (B-private, A-public) compute the same key, including failing alike |
| SessionCiphers.MirroredRoundTrip | Tests/X3DHSDKTests/Crypto/SessionCipherTests.swift:7-23 | what one end of a pairing encrypts, the mirrored cipher decrypts to the same message |
| SessionCiphers.OtherPairingFails | Tests/X3DHSDKTests/Crypto/SessionCipherTests.swift:25-41 | a cipher whose pairing key differs from the sender's fails with `decryptionFailed` |
| ForwardSecrecyCiphers.ForwardSecrecySessionCipher.Encrypt | Sources/X3DHSDK/Crypto/ForwardSecrecySessionCipher.swift:26-43 | the ciphertext is the message sealed under the key derived from the ephemeral key's agreement with the peer's identity key; the returned key is the ephemeral public key, signed over its raw bytes; succeeds exactly when agreement, sealing and signing do; every failure is `encodingError` |
| ForwardSecrecyCiphers.ForwardSecrecySessionCipher.Decrypt | Sources/X3DHSDK/Crypto/ForwardSecrecySessionCipher.swift:55-69 | a signature that does not verify gives `invalidSignature`; otherwise an agreement failure propagates as the library's error, and success opens under the key derived from the identity key and the sender's ephemeral key |
| ForwardSecrecyCiphers.VerificationPrecedesAgreement | Sources/X3DHSDK/Crypto/ForwardSecrecySessionCipher.swift:62-66 | when verification fails the result is `invalidSignature` whatever agreement, derivation and AEAD would do |
| ForwardSecrecyCiphers.EncryptIgnoresOwnIdentityKey | Sources/X3DHSDK/Crypto/ForwardSecrecySessionCipher.swift:31-34 | encryption gives the same result whatever the sender's own identity key |
| ForwardSecrecyCiphers.DecryptIgnoresPeerIdentityKey | Sources/X3DHSDK/Crypto/ForwardSecrecySessionCipher.swift:66-68 | decryption gives the same result whatever peer identity key the receiver stores |
| ForwardSecrecyCiphers.RoundTrip | Tests/X3DHSDKTests/Crypto/ForwardSecrecySessionCipherTests.swift:20-61 | the receiver owning the identity key encrypted to, verifying with the sender's signing public key, recovers the message |
| ForwardSecrecyCiphers.SubstitutedEphemeralKeyRejected | Sources/X3DHSDK/Crypto/ForwardSecrecySessionCipher.swift:62-64 | an ephemeral key replaced in transit under the original signature gives `invalidSignature`, whatever the ciphertext |
| ForwardSecrecyCiphers.OtherSignerRejected | Sources/X3DHSDK/Crypto/ForwardSecrecySessionCipher.swift:62-64 | verifying with any key but the signer's public key gives `invalidSignature` |
| MessageEncryptors.MessageEncryptor.Encrypt | Sources/X3DHSDK/Messages/MessageEncryptor.swift:24-36 | without a second key, exactly the session cipher's result; with one, the session ciphertext sealed again under it; every failure is `encodingError` |
| MessageEncryptors.MessageEncryptor.Decrypt | Sources/X3DHSDK/Messages/MessageEncryptor.swift:43-56 | without a second key, exactly the session cipher's result on the unchanged ciphertext; with one, the session cipher gets what the outer layer opened to; every failure is `decryptionFailed` |
| MessageEncryptors.OuterLayerIsAdditionalKey | Sources/X3DHSDK/Messages/MessageEncryptor.swift:26-29 | opening a layered ciphertext with the second key yields exactly the session cipher's ciphertext (the session layer is the inner one) |
| MessageEncryptors.RoundTrip | Tests/X3DHSDKTests/Messages/MessageEncryptorTests.swift:7-49 | mirrored encryptors with the same second key, or none, round-trip any message |
| MessageEncryptors.OtherAdditionalKeyFails | Tests/X3DHSDKTests/Messages/MessageEncryptorTests.swift:51-72 | a receiver with a different second key fails with `decryptionFailed`, whatever its session cipher |
| Sessions.X3DHSession.Encrypt | Sources/X3DHSDK/Public/X3DHSession.swift:70-89 | a static cipher takes precedence and yields `.session` of its output; otherwise the forward cipher and signing key together yield `.forward(ciphertext, ephemeral key, signature)`; otherwise `invalidSessionConfiguration`; cipher errors propagate unchanged |
| Sessions.X3DHSession.Decrypt | Sources/X3DHSDK/Public/X3DHSession.swift:99-125 | dispatch on the tag: `.session` without a static cipher and `.forward` without a forward cipher give `invalidSessionConfiguration`; the forward-cipher check precedes the signing-key check (`missingSigningPublicKey`); forward messages are verified against the session's own signing key's public half; cipher errors propagate unchanged |
| Sessions.SessionBased | Sources/X3DHSDK/Public/X3DHSession.swift:31-41 | only a static cipher over the given keys: no forward cipher, no signing key |
| Sessions.ForwardSecrecy | Sources/X3DHSDK/Public/X3DHSession.swift:50-63 | a forward cipher and the signing key, no static cipher |
| Sessions.AdditionalKeyIsIgnored | Sources/X3DHSDK/Public/X3DHSession.swift:34-40 | the second-layer key given to `sessionBased` makes no difference |
| Sessions.StaticModeIsolation | Sources/X3DHSDK/Public/X3DHSession.swift:102-112 | a static session produces only `.session` messages and refuses `.forward` ones with `invalidSessionConfiguration` |
| Sessions.ForwardModeIsolation | Sources/X3DHSDK/Public/X3DHSession.swift:102-106 | a forward session produces only `.forward` messages and refuses `.session` ones with `invalidSessionConfiguration` |
| Sessions.StaticModeRoundTrip | Sources/X3DHSDK/Public/X3DHSession.swift:99-107 | static sessions on each other's public keys round-trip any message |
| Sessions.ForwardModeRoundTripSharedSigningKey | Sources/X3DHSDK/Public/X3DHSession.swift:109-123 | forward sessions round-trip a message when both hold the same signing key |
| Sessions.ForwardModeRejectsPeerSignatures | Sources/X3DHSDK/Public/X3DHSession.swift:114-122 | as written, forward sessions with different signing keys refuse each other's messages with `invalidSignature` |
| PeerVerifiedSessions.PeerVerifiedSession.Decrypt | Sources/X3DHSDK/Public/X3DHSession.swift:109-123 | corrected forward dispatch: same checks and order, verifying against the peer's signing public key |
| PeerVerifiedSessions.ForwardSecrecy | Sources/X3DHSDK/Public/X3DHSession.swift:50-63 | corrected constructor: the facade's forward session plus the peer's signing public key |
| PeerVerifiedSessions.ForwardModeRoundTrip | Sources/X3DHSDK/Public/X3DHSession.swift:91-98 | with the correction, parties holding their own signing keys round-trip any forward message |
| PeerVerifiedSessions.ImpostorRejected | Sources/X3DHSDK/Public/X3DHSession.swift:118-123 | with the correction, a message signed by anyone but the expected peer gives `invalidSignature` |

## Left out

- The cryptographic primitives (Curve25519 agreement, HKDF-SHA256, ChaCha20-Poly1305, Ed25519) are library code. They are the fields of `Primitives.Provider`, constrained only by the laws in `primitives.dfy`.
- The laws are idealisations of the primitives' security properties. "Opens under no other key" and "verifies for no other key or data" hold for the real primitives only with overwhelming probability.
- Key generation, the AEAD nonce and Ed25519's signing randomness are not modelled. The nonce and the ephemeral private key are parameters, and signing is a function of key and data.
- The key wrappers (`Keys/PrivateKey.swift`, `Keys/PublicKey.swift`, `Keys/SigningKeyPair.swift`) are not part of this model. Their raw-bytes round trip and 32-byte sizes are library properties. Keys are datatypes over their raw bytes.
- `SigningPublicKey.verify` turns a thrown verification error into `false`. The model folds that into `isValidSignature`, which returns a `bool`.
- The combined sealed-box layout (nonce, then ciphertext, then tag) is the library's. The model keeps it behind `combined` and `sealedBox`.
- Discarding and zeroing the ephemeral private key and the one-time key after use concerns memory lifetime. A model over values cannot express it.
- "Two forward encryptions give different ephemeral keys" depends on the randomness of key generation, which is not modelled.
- Bit-flip tamper detection of the signature is not modelled. The laws say a signature verifies only for its signer's key and its data. They do not say that every altered signature fails.
- SessionCiphers.OtherPairingFails: its hypothesis is that the two ciphers' derived keys differ, not that their private keys differ. Distinct private keys giving distinct derived keys is a probabilistic property of X25519 and HKDF.
- KeyDerivation.DeriveSymmetricKey: that it equals `DeriveSymmetricKeyFromData` on the secret's bytes is assumed, not proved. CryptoKit's `hkdfDerivedSymmetricKey` and `HKDF.deriveKey` are both the one `hkdf` field of the provider.
- `X3DHError.errorDescription` strings are not modelled.
- The handshake types used in `Tests/X3DHSDKTests/Handshake/HandshakeTests.swift` (`HandshakeInitiator`, `HandshakeResponder`) are outside the modelled core and are not modelled.

## Findings

| source | as written | input that shows it | evidently intended | confidence | as-written member | corrected member |
|---|---|---|---|---|---|---|
| Sources/X3DHSDK/Public/X3DHSession.swift:114-122 | forward-mode `decrypt` verifies the sender's signature against `signingKey.publicKey()`, the receiver's own signing key | Alice and Bob build forward sessions with their own signing keys; Alice's message reaches Bob, who verifies it with Bob's public key and throws `invalidSignature` | verify against the sender's signing public key, as the names `senderSigningKey` and `missingSigningPublicKey` and the cipher's `senderSigningPublicKey` parameter indicate | medium; not executed | Sessions.ForwardModeRejectsPeerSignatures | PeerVerifiedSessions.ForwardModeRoundTrip |
