/** Relay tickets: claims, encoded without padding, a dot, and a MAC of the encoding. */
module Ticket {
  import opened Common
  import opened Text
  import B = Base64

  datatype Claims = Claims(version: int, session: string, user: string, role: string, expires: int)

  /** JSON and the keyed MAC, known only by their laws. */
  datatype Primitives = Primitives(
    marshal: Claims -> seq<byte>,
    unmarshal: seq<byte> -> Option<Claims>,
    mac: (string, string) -> seq<byte>)

  ghost predicate Lawful(on: Primitives) {
    forall t :: on.unmarshal(on.marshal(t)) == Some(t)
  }

  datatype Refusal = NoSecret | BadFormat | BadSignature | BadPayload | BadVersion | MissingField | Expired

  const DEFAULT_SECONDS := 600

  function Defaulted(t: Claims, now: int): Claims {
    var v := if t.version == 0 then t.(version := 1) else t;
    if v.expires == 0 then v.(expires := now + DEFAULT_SECONDS) else v
  }

  function Signature(on: Primitives, payload: string, secret: string): string {
    B.EncodeRaw(B.UrlSafe, on.mac(secret, payload))
  }

  function Sign(on: Primitives, t: Claims, secret: string, now: int): Result<string, Refusal> {
    if secret == "" then Err(NoSecret)
    else
      var payload := B.EncodeRaw(B.UrlSafe, on.marshal(Defaulted(t, now)));
      Ok(payload + "." + Signature(on, payload, secret))
  }

  function CheckClaims(t: Claims, now: int): Result<Claims, Refusal> {
    if t.version != 1 then Err(BadVersion)
    else if t.session == "" || t.role == "" then Err(MissingField)
    else if now > t.expires then Err(Expired)
    else Ok(t)
  }

  function Verify(on: Primitives, token: string, secret: string, now: int): Result<Claims, Refusal> {
    if secret == "" then Err(NoSecret)
    else
      var parts := Split(token, '.');
      if |parts| != 2 then Err(BadFormat)
      else if Signature(on, parts[0], secret) != parts[1] then Err(BadSignature)
      else
        match B.DecodeRaw(B.UrlSafe, parts[0])
        case None => Err(BadPayload)
        case Some(raw) =>
          match on.unmarshal(raw)
          case None => Err(BadPayload)
          case Some(t) => CheckClaims(t, now)
  }

  /** The URL alphabet has no dot. */
  lemma {:induction false} WrittenLacksDot(v: seq<B.Sextet>)
    ensures Lacks(B.Write(B.UrlSafe, v), '.')
  {
    if v != [] { WrittenLacksDot(v[1..]); }
  }

  lemma SplitToken(payload: string, signature: string)
    requires Lacks(payload, '.') && Lacks(signature, '.')
    ensures Split(payload + "." + signature, '.') == [payload, signature]
  {
    SplitConcat(payload, signature, '.');
    SplitWhole(payload, '.');
    SplitWhole(signature, '.');
  }

  /** Verifying a ticket one signed oneself returns the claims with the defaults filled
      in, or precisely the refusal those claims deserve at that time. */
  lemma VerifySigned(on: Primitives, t: Claims, secret: string, signedAt: int, now: int)
    requires Lawful(on) && secret != ""
    ensures Sign(on, t, secret, signedAt).Ok?
    ensures var expires := if t.expires == 0 then signedAt + 600 else t.expires;
            Verify(on, Sign(on, t, secret, signedAt).value, secret, now) ==
            if t.version !in {0, 1} then Err(BadVersion)
            else if t.session == "" || t.role == "" then Err(MissingField)
            else if expires < now then Err(Expired)
            else Ok(Claims(1, t.session, t.user, t.role, expires))
  {
    var raw := on.marshal(Defaulted(t, signedAt));
    var payload := B.EncodeRaw(B.UrlSafe, raw);
    var signature := Signature(on, payload, secret);
    WrittenLacksDot(B.Sextets(raw));
    WrittenLacksDot(B.Sextets(on.mac(secret, payload)));
    SplitToken(payload, signature);
    B.DecodeRawExactly(B.UrlSafe, raw, payload);
  }

  /** A token stands for these claims: a payload decoding to them, a dot, and the MAC of
      exactly that payload. */
  ghost predicate Genuine(on: Primitives, token: string, secret: string, payload: string, t: Claims) {
    && Lacks(payload, '.')
    && token == payload + "." + Signature(on, payload, secret)
    && B.DecodeRaw(B.UrlSafe, payload).Some?
    && on.unmarshal(B.DecodeRaw(B.UrlSafe, payload).value) == Some(t)
  }

  /** The accepted tokens are exactly the genuine ones with a known version, a session, a
      role and time left. */
  lemma AcceptedExactly(on: Primitives, token: string, secret: string, now: int, t: Claims)
    ensures Verify(on, token, secret, now) == Ok(t) <==>
              && secret != "" && (exists payload :: Genuine(on, token, secret, payload, t))
              && t.version == 1 && t.session != "" && t.role != "" && now <= t.expires
  {
    var parts := Split(token, '.');
    if |parts| == 2 {
      JoinSplit(token, '.');
      SplitLacks(token, '.');
      assert parts[..1] == [parts[0]];
      assert token == parts[0] + "." + parts[1];
    }
    if Verify(on, token, secret, now) == Ok(t) {
      assert Genuine(on, token, secret, parts[0], t);
    }
    if payload :| Genuine(on, token, secret, payload, t) {
      WrittenLacksDot(B.Sextets(on.mac(secret, payload)));
      SplitToken(payload, Signature(on, payload, secret));
    }
  }

  /** No two accepted tokens share their payload: whatever follows the dot is forced. */
  lemma PayloadForcesToken(on: Primitives, a: string, b: string, secret: string, now: int)
    requires Verify(on, a, secret, now).Ok? && Verify(on, b, secret, now).Ok?
    ensures Split(a, '.')[0] == Split(b, '.')[0] <==> a == b
  {
    JoinSplit(a, '.');
    JoinSplit(b, '.');
  }
}
