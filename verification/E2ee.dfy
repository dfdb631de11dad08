/** The encrypted envelope, over ideal cryptography.

    A key pair is known by its public half. X25519 agreement gives the same
    secret at both ends (section 6.1 of RFC 7748), so the shared key is the set of
    the two public keys. A sealed box remembers the key, nonce and plaintext it was
    made from; opening it needs that key and nonce and gives that plaintext back. */
module E2ee {
  import opened Common
  import Base64

  const VERSION := 1
  const NONCE_SIZE := 24

  type PublicKey = k: seq<byte> | |k| == 32 witness seq(32, _ => 0)

  type Nonce = n: seq<byte> | |n| == NONCE_SIZE witness seq(24, _ => 0)

  type SharedKey = set<PublicKey>

  /** The private half never leaves its owner; holding this value stands for holding it. */
  datatype KeyPair = KeyPair(public: PublicKey)

  function Agree(own: KeyPair, peer: PublicKey): SharedKey {
    {own.public, peer}
  }

  datatype PlainMessage = PlainMessage(typ: string, sid: string, num: nat, data: string)

  datatype Plaintext = Json(msg: PlainMessage) | NotJson

  datatype Ciphertext = Box(key: SharedKey, nonce: Nonce, plain: Plaintext) | Noise

  /** A box one side made, and what it put inside. */
  datatype Sealing = Sealing(key: SharedKey, nonce: Nonce, msg: PlainMessage)

  function SealingNum(x: Sealing): int { x.msg.num }

  function MessageNum(m: PlainMessage): int { m.num }

  /** `ciphertext` is None when the field is not base64 text. */
  datatype Envelope = Envelope(version: int, sid: string, sender: string, num: nat, nonce: string,
                               ciphertext: Option<Ciphertext>)

  datatype OpenError =
    | UnsupportedVersion
    | BadNonce
    | BadNonceLength
    | BadCiphertext
    | DecryptFailed
    | BadPlaintext
    | SessionMismatch
    | SequenceMismatch

  function EncodePublicKey(key: PublicKey): string {
    Base64.EncodeRaw(Base64.UrlSafe, key)
  }

  function ParsePublicKey(encoded: string): Option<PublicKey> {
    match Base64.DecodeRaw(Base64.UrlSafe, encoded)
    case None => None
    case Some(raw) => if |raw| == 32 then Some(raw) else None
  }

  function Decrypt(key: SharedKey, nonce: seq<byte>, ciphertext: Ciphertext): Option<Plaintext> {
    if ciphertext.Box? && ciphertext.key == key && ciphertext.nonce == nonce then Some(ciphertext.plain)
    else None
  }

  /** Seal once every step that can fail (marshalling, randomness, agreement) has succeeded. */
  function Seal(own: KeyPair, peer: PublicKey, sender: string, nonce: Nonce, msg: PlainMessage): Envelope {
    Envelope(VERSION, msg.sid, sender, msg.num, Base64.EncodeRaw(Base64.UrlSafe, nonce),
             Some(Box(Agree(own, peer), nonce, Json(msg))))
  }

  function Open(own: KeyPair, peer: PublicKey, env: Envelope): Result<PlainMessage, OpenError> {
    if env.version != VERSION then Err(UnsupportedVersion)
    else
      match Base64.DecodeRaw(Base64.UrlSafe, env.nonce)
      case None => Err(BadNonce)
      case Some(nonce) =>
        if |nonce| != NONCE_SIZE then Err(BadNonceLength)
        else if env.ciphertext.None? then Err(BadCiphertext)
        else
          match Decrypt(Agree(own, peer), nonce, env.ciphertext.value)
          case None => Err(DecryptFailed)
          case Some(NotJson) => Err(BadPlaintext)
          case Some(Json(msg)) =>
            if msg.sid != "" && msg.sid != env.sid then Err(SessionMismatch)
            else if msg.num != env.num then Err(SequenceMismatch)
            else Ok(msg)
  }

  // The phone's halves of the same format (crypto_service.dart).

  function PhoneSeal(key: SharedKey, nonce: Nonce, msg: PlainMessage): Envelope {
    Envelope(VERSION, msg.sid, "mobile", msg.num, Base64.UrlNoPadEncode(nonce), Some(Box(key, nonce, Json(msg))))
  }

  /** The phone does not look at the version, and compares session ids only when the
      envelope names one. */
  function PhoneOpen(key: SharedKey, env: Envelope): Result<PlainMessage, OpenError> {
    if env.ciphertext.None? then Err(BadCiphertext)
    else
      match Base64.UrlNoPadDecode(env.nonce)
      case None => Err(BadNonce)
      case Some(nonce) =>
        match Decrypt(key, nonce, env.ciphertext.value)
        case None => Err(DecryptFailed)
        case Some(NotJson) => Err(BadPlaintext)
        case Some(Json(msg)) =>
          if env.sid != "" && msg.sid != env.sid then Err(SessionMismatch)
          else if msg.num != env.num then Err(SequenceMismatch)
          else Ok(msg)
  }

  /** The message inside an envelope's box, if the box was made under `key`. */
  function Carried(key: SharedKey, env: Envelope): Option<PlainMessage> {
    match env.ciphertext
    case Some(Box(k, _, Json(msg))) => if k == key then Some(msg) else None
    case _ => None
  }

  /** Header binding: whatever header an envelope travels under, what comes out is the
      message sealed in its box, under the sequence number the header shows. */
  lemma OpenGivesCarried(own: KeyPair, peer: PublicKey, env: Envelope)
    ensures Open(own, peer, env).Ok? ==>
              Carried(Agree(own, peer), env) == Some(Open(own, peer, env).value)
              && Open(own, peer, env).value.num == env.num
    ensures PhoneOpen(Agree(own, peer), env).Ok? ==>
              Carried(Agree(own, peer), env) == Some(PhoneOpen(Agree(own, peer), env).value)
              && PhoneOpen(Agree(own, peer), env).value.num == env.num
  {
    hide Base64.DecodeRaw, Base64.UrlNoPadDecode;
  }

  /** The box in the envelope holds `msg`, was made under `key` with the nonce that `nonce`
      is, and the header shows its number. */
  predicate Authentic(key: SharedKey, env: Envelope, nonce: Option<seq<byte>>, msg: PlainMessage) {
    && Carried(key, env) == Some(msg) && nonce == Some(env.ciphertext.value.nonce) && env.num == msg.num
  }

  /** Which envelopes each side opens, and to what. The two differ: only the daemon looks
      at the version; the daemon lets an empty session id inside the box pass, the phone an
      empty one in the header. Neither looks at the sender. */
  lemma OpenExactly(own: KeyPair, peer: PublicKey, env: Envelope, msg: PlainMessage)
    ensures Open(own, peer, env) == Ok(msg) <==>
              && env.version == 1 && (msg.sid == "" || msg.sid == env.sid)
              && Authentic(Agree(own, peer), env, Base64.DecodeRaw(Base64.UrlSafe, env.nonce), msg)
    ensures PhoneOpen(Agree(own, peer), env) == Ok(msg) <==>
              && (env.sid == "" || msg.sid == env.sid)
              && Authentic(Agree(own, peer), env, Base64.UrlNoPadDecode(env.nonce), msg)
  {
    hide Base64.DecodeRaw, Base64.UrlNoPadDecode;
  }

  lemma EncodeParse(key: PublicKey)
    ensures ParsePublicKey(EncodePublicKey(key)) == Some(key)
  {
    Base64.CrossLanguageRoundTrip(key);
  }

  lemma NonceTravels(nonce: Nonce)
    ensures Base64.DecodeRaw(Base64.UrlSafe, Base64.UrlNoPadEncode(nonce)) == Some(nonce)
    ensures Base64.DecodeRaw(Base64.UrlSafe, Base64.EncodeRaw(Base64.UrlSafe, nonce)) == Some(nonce)
    ensures Base64.UrlNoPadDecode(Base64.EncodeRaw(Base64.UrlSafe, nonce)) == Some(nonce)
  {
    Base64.CrossLanguageRoundTrip(nonce);
  }

  /** Each side opens, unchanged, what the other sealed for it. */
  lemma SealedOpensAtOtherEnd(daemon: KeyPair, phone: KeyPair, nonce: Nonce, sender: string, msg: PlainMessage)
    ensures Open(daemon, phone.public, PhoneSeal(Agree(phone, daemon.public), nonce, msg)) == Ok(msg)
    ensures PhoneOpen(Agree(phone, daemon.public), Seal(daemon, phone.public, sender, nonce, msg)) == Ok(msg)
  {
    hide Base64.DecodeRaw, Base64.UrlNoPadDecode, Base64.UrlNoPadEncode, Base64.EncodeRaw;
    NonceTravels(nonce);
  }

  /** A box made for one pair of keys opens for no other pair. */
  lemma OtherKeysNeverOpen(own: KeyPair, peer: PublicKey, other: KeyPair, others: PublicKey, sender: string,
                           nonce: Nonce, msg: PlainMessage)
    requires Agree(own, peer) != Agree(other, others)
    ensures Open(other, others, Seal(own, peer, sender, nonce, msg)) == Err(DecryptFailed)
    ensures PhoneOpen(Agree(other, others), Seal(own, peer, sender, nonce, msg)) == Err(DecryptFailed)
  {
    hide Base64.DecodeRaw, Base64.UrlNoPadDecode, Base64.UrlNoPadEncode, Base64.EncodeRaw;
    NonceTravels(nonce);
  }
}
