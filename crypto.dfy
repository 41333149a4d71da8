/**
 * The client's hybrid encryption (client/crypto.py): a fresh AES-256-GCM
 * session key seals each message once, and the session key is wrapped once
 * per recipient under that recipient's RSA-OAEP public key.
 *
 * The random bytes `os.urandom` would draw are parameters.
 */
module Crypto {
  import opened Wrappers
  import opened Utf8
  import opened Primitives

  /** 32 random bytes: an AES-256 session key. */
  type SessionKey = k: seq<byte> | |k| == 32 witness seq(32, _ => 0)

  /** 12 random bytes: a 96-bit GCM IV. */
  type Iv = v: seq<byte> | |v| == 12 witness seq(12, _ => 0)

  /** `encrypt_message`'s result: the four fields `iv`, `tag`, `ciphertext` and `keys`. */
  datatype SealedPayload = SealedPayload(iv: Base64Text, tag: Base64Text, ciphertext: Base64Text, keys: map<string, Base64Text>)

  /** Why `decrypt_payload` failed: the exception it caught. */
  datatype Fault =
    | Base64Fault   // a field that is not base64
    | NoPrivateKey  // no key pair generated yet
    | UnwrapFault   // OAEP decryption failed
    | KeySizeFault  // the unwrapped key is not an AES key size
    | IvSizeFault   // the IV is outside GCM's 8..128 bytes
    | TagSizeFault  // the tag is shorter than 16 bytes
    | InvalidTag    // authentication failed
    | Utf8Fault     // the plaintext is not UTF-8

  const DECRYPTION_ERROR_PREFIX := "[Decryption Error: "

  /** The text the caught exception renders to; the library's exact wording is not modelled. */
  function Describe(f: Fault): string
  {
    match f
    case Base64Fault => "invalid base64"
    case NoPrivateKey => "no private key"
    case UnwrapFault => "OAEP decryption failed"
    case KeySizeFault => "invalid AES key size"
    case IvSizeFault => "invalid GCM IV size"
    case TagSizeFault => "GCM tag too short"
    case InvalidTag => "invalid tag"
    case Utf8Fault => "plaintext is not UTF-8"
  }

  /** `encrypt_aes_key_for_recipient`: the session key wrapped for one recipient, base64 encoded. */
  function WrapSessionKey(sessionKey: seq<byte>, recipient: PublicKey): (t: Base64Text)
    ensures forall k :: PublicOf(k) == recipient ==> UnwrapSessionKey(Some(k), t) == Ok(Octets(sessionKey))
    ensures forall k :: PublicOf(k) != recipient ==> UnwrapSessionKey(Some(k), t) == Err(UnwrapFault)
    ensures UnwrapSessionKey(None, t) == Err(NoPrivateKey)
  {
    B64Encode(OaepEncrypt(recipient, Octets(sessionKey)))
  }

  /** What `encrypt_message(message, recipients)` returns when `os.urandom` yields `sessionKey` and then `iv`. */
  function Seal(message: string, recipients: map<string, PublicKey>, sessionKey: SessionKey, iv: Iv): (p: SealedPayload)
    ensures p.keys.Keys == recipients.Keys
    ensures B64Decode(p.iv) == Some(Octets(iv)) && B64Decode(p.tag).Some? && B64Decode(p.ciphertext).Some?
  {
    var sealed := GcmEncrypt(Octets(sessionKey), Octets(iv), Octets(Encode(message)));
    SealedPayload(
      B64Encode(Octets(iv)), B64Encode(sealed.tag), B64Encode(sealed.ciphertext),
      map id | id in recipients :: WrapSessionKey(sessionKey, recipients[id]))
  }

  function DecodeField(t: Base64Text): Result<Blob, Fault>
  {
    match B64Decode(t)
    case Some(b) => Ok(b)
    case None => Err(Base64Fault)
  }

  /** `decrypt_aes_key` with the client's private key, if it has one. */
  function UnwrapSessionKey(key: Option<PrivateKey>, wrapped: Base64Text): (r: Result<Blob, Fault>)
    ensures B64Decode(wrapped).None? ==> r == Err(Base64Fault)
    ensures B64Decode(wrapped).Some? && key.None? ==> r == Err(NoPrivateKey)
    ensures r.Ok? ==> key.Some? && B64Decode(wrapped) == Some(OaepEncrypt(PublicOf(key.value), r.value))
    ensures forall m :: key.Some? && B64Decode(wrapped) == Some(OaepEncrypt(PublicOf(key.value), m)) ==> r == Ok(m)
  {
    var c :- DecodeField(wrapped);
    if key.None? then Err(NoPrivateKey)
    else
      match OaepDecrypt(key.value, c)
      case Some(sessionKey) => Ok(sessionKey)
      case None => Err(UnwrapFault)
  }

  function DecodeText(b: Blob): Result<string, Fault>
  {
    match b
    case Octets(bytes) => (match Decode(bytes) case Some(s) => Ok(s) case None => Err(Utf8Fault))
    case _ => Err(Utf8Fault)
  }

  /**
   * The steps of `decrypt_payload`, in the order they run: unwrap the session
   * key, decode the IV, tag and ciphertext, check the AES key and GCM
   * parameter sizes, verify and decrypt, decode the plaintext as UTF-8.
   */
  function OpenPayload(key: Option<PrivateKey>, ivText: Base64Text, tagText: Base64Text, ciphertextText: Base64Text, wrapped: Base64Text): (r: Result<string, Fault>)
    ensures UnwrapSessionKey(key, wrapped).Err? ==> r == Err(UnwrapSessionKey(key, wrapped).error)
    ensures r.Ok? ==>
      UnwrapSessionKey(key, wrapped).Ok? && B64Decode(ivText).Some? && B64Decode(tagText).Some? && B64Decode(ciphertextText).Some?
      && Length(UnwrapSessionKey(key, wrapped).value) in {16, 24, 32}
      && 8 <= Length(B64Decode(ivText).value) <= 128
      && Length(B64Decode(tagText).value) >= 16
  {
    var sessionKey :- UnwrapSessionKey(key, wrapped);
    var iv :- DecodeField(ivText);
    var tag :- DecodeField(tagText);
    var ciphertext :- DecodeField(ciphertextText);
    if Length(sessionKey) !in {16, 24, 32} then Err(KeySizeFault)
    else if !(8 <= Length(iv) <= 128) then Err(IvSizeFault)
    else if Length(tag) < 16 then Err(TagSizeFault)
    else
      match GcmDecrypt(sessionKey, iv, tag, ciphertext)
      case None => Err(InvalidTag)
      case Some(plain) => DecodeText(plain)
  }

  /** What `decrypt_payload` returns: the plaintext, or the caught exception rendered as a notice. */
  function RenderDecryption(r: Result<string, Fault>): (text: string)
    ensures r.Ok? ==> text == r.value
    ensures r.Err? ==> DECRYPTION_ERROR_PREFIX <= text && text[|DECRYPTION_ERROR_PREFIX|..] == Describe(r.error) + "]"
  {
    match r
    case Ok(plain) => plain
    case Err(f) => DECRYPTION_ERROR_PREFIX + Describe(f) + "]"
  }

  class OnyxCrypto {
    var privateKey: Option<PrivateKey>
    var publicKey: Option<PublicKey>
    var publicKeyPem: Option<PemText>

    constructor ()
      ensures privateKey == None && publicKey == None && publicKeyPem == None
    {
      privateKey, publicKey, publicKeyPem := None, None, None;
    }

    /** `generate_keys`: a fresh key pair, whose public half is also kept as PEM text. */
    method GenerateKeys(draw: nat)
      modifies this
      ensures privateKey == Some(PrivateKey(draw))
      ensures publicKey == Some(PublicOf(PrivateKey(draw)))
      ensures publicKeyPem == Some(ExportPem(PublicOf(PrivateKey(draw))))
    {
      var k := PrivateKey(draw);
      privateKey := Some(k);
      publicKey := Some(PublicOf(k));
      publicKeyPem := Some(ExportPem(PublicOf(k)));
    }

    /** `load_public_key`: a parse failure of any kind yields `None` rather than an exception. */
    static function LoadPublicKey(pem: PemText): (r: Option<PublicKey>)
      ensures r.Some? <==> pem.PemOf?
      ensures forall k :: pem == ExportPem(k) ==> r == Some(k)
    {
      ParsePem(pem)
    }

    /**
     * `encrypt_message`: seal once under the session key, then wrap that one
     * session key for each recipient in turn.
     */
    method EncryptMessage(message: string, recipients: map<string, PublicKey>, sessionKey: SessionKey, iv: Iv)
      returns (payload: SealedPayload)
      ensures payload == Seal(message, recipients, sessionKey, iv)
      ensures payload.keys.Keys == recipients.Keys
    {
      var sealed := GcmEncrypt(Octets(sessionKey), Octets(iv), Octets(Encode(message)));
      var encryptedKeys: map<string, Base64Text> := map[];
      var pending := recipients.Keys;
      while pending != {}
        invariant pending <= recipients.Keys
        invariant encryptedKeys.Keys == recipients.Keys - pending
        invariant forall id :: id in encryptedKeys ==> encryptedKeys[id] == WrapSessionKey(sessionKey, recipients[id])
        decreases pending
      {
        var id :| id in pending;
        encryptedKeys := encryptedKeys[id := WrapSessionKey(sessionKey, recipients[id])];
        pending := pending - {id};
      }
      payload := SealedPayload(B64Encode(Octets(iv)), B64Encode(sealed.tag), B64Encode(sealed.ciphertext), encryptedKeys);
    }

    /** `decrypt_payload`: never raises; any failure becomes a "[Decryption Error: ...]" string. */
    function DecryptPayload(ivText: Base64Text, tagText: Base64Text, ciphertextText: Base64Text, wrapped: Base64Text): (text: string)
      reads this
      ensures OpenPayload(privateKey, ivText, tagText, ciphertextText, wrapped).Err? ==> DECRYPTION_ERROR_PREFIX <= text
    {
      RenderDecryption(OpenPayload(privateKey, ivText, tagText, ciphertextText, wrapped))
    }
  }

  // ---------------------------------------------------------------------------
  // Properties of the envelope

  /** Every entry of `keys` wraps the one session key of the call, for exactly the recipients given. */
  lemma OneSessionKeyForAll(message: string, recipients: map<string, PublicKey>, sessionKey: SessionKey, iv: Iv)
    ensures Seal(message, recipients, sessionKey, iv).keys.Keys == recipients.Keys
    ensures forall id :: id in recipients ==>
      B64Decode(Seal(message, recipients, sessionKey, iv).keys[id]) == Some(OaepEncrypt(recipients[id], Octets(sessionKey)))
  {
  }

  /** `iv` is the base64 of the 12-byte IV and `tag` the base64 of GCM's 16-byte tag. */
  lemma SealedFields(message: string, recipients: map<string, PublicKey>, sessionKey: SessionKey, iv: Iv)
    ensures B64Decode(Seal(message, recipients, sessionKey, iv).iv) == Some(Octets(iv))
    ensures var t := B64Decode(Seal(message, recipients, sessionKey, iv).tag);
      t.Some? && Length(t.value) == GCM_TAG_BYTES
  {
  }

  /** With no recipients, the message is still sealed and `keys` is empty. */
  lemma NoRecipients(message: string, sessionKey: SessionKey, iv: Iv)
    ensures Seal(message, map[], sessionKey, iv).keys == map[]
    ensures B64Decode(Seal(message, map[], sessionKey, iv).ciphertext)
         == Some(GcmEncrypt(Octets(sessionKey), Octets(iv), Octets(Encode(message))).ciphertext)
  {
  }

  /** A recipient whose private key matches its entry recovers the message. */
  lemma DecryptRoundTrip(message: string, recipients: map<string, PublicKey>, sessionKey: SessionKey, iv: Iv, id: string, key: PrivateKey)
    requires id in recipients && recipients[id] == PublicOf(key)
    ensures var p := Seal(message, recipients, sessionKey, iv);
      OpenPayload(Some(key), p.iv, p.tag, p.ciphertext, p.keys[id]) == Ok(message)
  {
    DecodeEncode(message);
  }

  /** A private key that does not match the entry's public key cannot unwrap it. */
  lemma ForeignKeyRejected(message: string, recipients: map<string, PublicKey>, sessionKey: SessionKey, iv: Iv, id: string, key: PrivateKey)
    requires id in recipients && recipients[id] != PublicOf(key)
    ensures var p := Seal(message, recipients, sessionKey, iv);
      OpenPayload(Some(key), p.iv, p.tag, p.ciphertext, p.keys[id]) == Err(UnwrapFault)
  {
  }

  /** Any other tag is rejected: no plaintext is released. */
  lemma TamperedTagRejected(message: string, recipients: map<string, PublicKey>, sessionKey: SessionKey, iv: Iv, id: string, key: Option<PrivateKey>, tag: Base64Text)
    requires id in recipients
    requires tag != Seal(message, recipients, sessionKey, iv).tag
    ensures var p := Seal(message, recipients, sessionKey, iv);
      OpenPayload(key, p.iv, tag, p.ciphertext, p.keys[id]).Err?
  {
  }

  /** Any other ciphertext under the original tag is rejected. */
  lemma TamperedCiphertextRejected(message: string, recipients: map<string, PublicKey>, sessionKey: SessionKey, iv: Iv, id: string, key: Option<PrivateKey>, ciphertext: Base64Text)
    requires id in recipients
    requires ciphertext != Seal(message, recipients, sessionKey, iv).ciphertext
    ensures var p := Seal(message, recipients, sessionKey, iv);
      OpenPayload(key, p.iv, p.tag, ciphertext, p.keys[id]).Err?
  {
  }

  /** Whatever the fields hold, decryption yields either authenticated plaintext or an error notice. */
  lemma OpenReleasesOnlyAuthentic(key: Option<PrivateKey>, ivText: Base64Text, tagText: Base64Text, ciphertextText: Base64Text, wrapped: Base64Text)
    requires OpenPayload(key, ivText, tagText, ciphertextText, wrapped).Ok?
    ensures var sessionKey := UnwrapSessionKey(key, wrapped).value;
      var iv := B64Decode(ivText).value;
      exists plain ::
        B64Decode(ciphertextText) == Some(GcmEncrypt(sessionKey, iv, plain).ciphertext)
        && B64Decode(tagText) == Some(GcmEncrypt(sessionKey, iv, plain).tag)
        && DecodeText(plain) == OpenPayload(key, ivText, tagText, ciphertextText, wrapped)
  {
    var sessionKey := UnwrapSessionKey(key, wrapped).value;
    var iv := B64Decode(ivText).value;
    var c := B64Decode(ciphertextText).value;
    var plain := GcmDecrypt(sessionKey, iv, B64Decode(tagText).value, c).value;
    GcmAuthentic(sessionKey, iv, B64Decode(tagText).value, c, plain);
  }
}
