/**
 * The cryptographic library the client calls, as a symbolic model: RSA-OAEP
 * with SHA-256 and MGF1 (section 7.1 of RFC 8017), AES-GCM with a 96-bit IV
 * (NIST SP 800-38D), base64 (section 4 of RFC 4648) and PEM public keys.
 *
 * The output of a primitive is a term that remembers its inputs, so each
 * primitive is a function with a body and the library's guarantees become
 * lemmas proved about those bodies: unwrapping with the matching private key
 * inverts wrapping, opening with the right key, IV and untouched tag inverts
 * sealing, decoding inverts encoding, and every other input fails.
 */
module Primitives {
  import opened Wrappers
  import opened Utf8

  /** An RSA key pair is told apart by the random draw that generated it. */
  datatype PrivateKey = PrivateKey(serial: nat)

  datatype PublicKey = PublicKey(serial: nat)

  function PublicOf(k: PrivateKey): PublicKey
  {
    PublicKey(k.serial)
  }

  /** A byte string: literal octets, or the output of a primitive applied to byte strings. */
  datatype Blob =
    | Octets(bytes: seq<byte>)
    | OaepCiphertext(recipient: PublicKey, plain: Blob)
    | GcmCiphertext(key: Blob, iv: Blob, plain: Blob)
    | GcmTag(key: Blob, iv: Blob, plain: Blob)

  /** 2048-bit RSA: every OAEP ciphertext is one modulus long. */
  const RSA_MODULUS_BYTES := 256
  /** GCM's full-length authentication tag. */
  const GCM_TAG_BYTES := 16

  function Length(b: Blob): nat
  {
    match b
    case Octets(bytes) => |bytes|
    case OaepCiphertext(_, _) => RSA_MODULUS_BYTES
    case GcmCiphertext(_, _, plain) => Length(plain)
    case GcmTag(_, _, _) => GCM_TAG_BYTES
  }

  function OaepEncrypt(recipient: PublicKey, plain: Blob): Blob
  {
    OaepCiphertext(recipient, plain)
  }

  function OaepDecrypt(key: PrivateKey, c: Blob): Option<Blob>
  {
    match c
    case OaepCiphertext(recipient, plain) => if recipient == PublicOf(key) then Some(plain) else None
    case _ => None
  }

  datatype Sealed = Sealed(ciphertext: Blob, tag: Blob)

  function GcmEncrypt(key: Blob, iv: Blob, plain: Blob): Sealed
  {
    Sealed(GcmCiphertext(key, iv, plain), GcmTag(key, iv, plain))
  }

  /** GCM decryption with tag verification: either the authenticated plaintext or nothing. */
  function GcmDecrypt(key: Blob, iv: Blob, tag: Blob, c: Blob): Option<Blob>
  {
    match c
    case GcmCiphertext(k, v, plain) =>
      if k == key && v == iv && tag == GcmTag(k, v, plain) then Some(plain) else None
    case _ => None
  }

  /** A base64 field: the encoding of a byte string, or any other value. */
  datatype Base64Text = Base64Of(blob: Blob) | NotBase64(raw: string)

  function B64Encode(b: Blob): Base64Text
  {
    Base64Of(b)
  }

  function B64Decode(t: Base64Text): Option<Blob>
  {
    match t
    case Base64Of(b) => Some(b)
    case NotBase64(_) => None
  }

  /** A `pubkey` field: the PEM text of a public key, other text, or no text at all. */
  datatype PemText = PemOf(key: PublicKey) | NotPem(raw: string) | NotText

  function ExportPem(k: PublicKey): PemText
  {
    PemOf(k)
  }

  function ParsePem(t: PemText): Option<PublicKey>
  {
    match t
    case PemOf(k) => Some(k)
    case _ => None
  }

  // The library's guarantees.

  lemma OaepInverse(k: PrivateKey, m: Blob)
    ensures OaepDecrypt(k, OaepEncrypt(PublicOf(k), m)) == Some(m)
  {
  }

  lemma OaepForeignKey(k: PrivateKey, recipient: PublicKey, m: Blob)
    requires recipient != PublicOf(k)
    ensures OaepDecrypt(k, OaepEncrypt(recipient, m)) == None
  {
  }

  lemma GcmInverse(key: Blob, iv: Blob, m: Blob)
    ensures GcmDecrypt(key, iv, GcmEncrypt(key, iv, m).tag, GcmEncrypt(key, iv, m).ciphertext) == Some(m)
  {
  }

  /** A plaintext comes out only together with the tag sealed with it, under the same key and IV. */
  lemma GcmAuthentic(key: Blob, iv: Blob, tag: Blob, c: Blob, m: Blob)
    requires GcmDecrypt(key, iv, tag, c) == Some(m)
    ensures GcmEncrypt(key, iv, m) == Sealed(c, tag)
  {
  }

  lemma B64Inverse(b: Blob)
    ensures B64Decode(B64Encode(b)) == Some(b)
  {
  }

  lemma PemInverse(k: PublicKey)
    ensures ParsePem(ExportPem(k)) == Some(k)
  {
  }
}
