/** Signed tokens carried by the links of an email. */
module EmailToken {
  import opened Wrappers
  import opened Text
  import opened Base64Url

  datatype Error = NoSecret | Incomplete | Malformed | BadSignature | BadPayload | BadVersion | Expired
  datatype Result<T> = Ok(value: T) | Err(error: Error)

  datatype Claims = Claims(
    version: int, recipient: string, queueID: string, sourceType: string, objectID: int, action: string,
    reason: string, policyHash: string, runtimeHash: string, issuedAt: int, expiresAt: int)

  /** What the source takes from its libraries: HMAC-SHA256, the JSON form of claims, lower case. */
  datatype Library = Library(
    mac: (string, string) -> seq<Byte>,
    marshal: Claims -> seq<Byte>,
    unmarshal: seq<Byte> -> Option<Claims>,
    lower: char -> char)

  /** JSON reads back what it wrote, and neither a payload nor a signature is empty. */
  ghost predicate Faithful(lib: Library) {
    && (forall c :: lib.unmarshal(lib.marshal(c)) == Some(c) && lib.marshal(c) != [])
    && forall key, text :: lib.mac(key, text) != []
  }

  const VERSION := 1

  /** Seconds since the epoch of an instant in nanoseconds. */
  function Unix(t: int): int { t / 1_000_000_000 }

  const LIFETIME := 24 * 3600 * 1_000_000_000

  function Normalised(lib: Library, c: Claims, issuedAt: int, expiresAt: int): Claims {
    c.(version := VERSION,
       recipient := TrimSpace(c.recipient),
       queueID := TrimSpace(c.queueID),
       sourceType := TrimSpace(c.sourceType),
       action := MapChars(lib.lower, TrimSpace(c.action)),
       reason := TrimSpace(c.reason),
       issuedAt := Unix(issuedAt),
       expiresAt := Unix(expiresAt))
  }

  predicate Complete(c: Claims) {
    c.recipient != "" && c.queueID != "" && c.sourceType != "" && c.objectID > 0 && c.action != ""
  }

  function Signature(lib: Library, secret: string, payload: string): string {
    Encode(lib.mac(secret, payload))
  }

  function Sign(lib: Library, secret: string, c: Claims, issuedAt: int, expiresAt: int): Result<string> {
    if TrimSpace(secret) == "" then Err(NoSecret)
    else
      var n := Normalised(lib, c, issuedAt, expiresAt);
      if !Complete(n) then Err(Incomplete)
      else
        var payload := Encode(lib.marshal(n));
        Ok(payload + "." + Signature(lib, secret, payload))
  }

  /** What a verified payload must still satisfy. */
  function Admit(c: Claims, now: int): Result<Claims> {
    if c.version != VERSION then Err(BadVersion)
    else if Unix(now) > c.expiresAt then Err(Expired)
    else if TrimSpace(c.recipient) == "" || TrimSpace(c.queueID) == "" || c.objectID <= 0 then Err(Incomplete)
    else Ok(c)
  }

  function Verify(lib: Library, token: string, secret: string, now: int): Result<Claims> {
    if TrimSpace(secret) == "" then Err(NoSecret)
    else
      var parts := Split(token, '.');
      if |parts| != 2 || parts[0] == "" || parts[1] == "" then Err(Malformed)
      else if Signature(lib, secret, parts[0]) != parts[1] then Err(BadSignature)
      else match Decode(parts[0])
        case None => Err(BadPayload)
        case Some(raw) =>
          match lib.unmarshal(raw)
          case None => Err(BadPayload)
          case Some(c) => Admit(c, now)
  }

  lemma {:induction false} SplitsInTwo(a: string, b: string)
    requires '.' !in a && '.' !in b
    ensures Split(a + "." + b, '.') == [a, b]
  {
    SplitAppend(a, b, '.');
    SplitSimple(a, '.');
    SplitSimple(b, '.');
  }

  lemma {:induction false} TwoParts(token: string)
    requires |Split(token, '.')| == 2
    ensures var parts := Split(token, '.');
            token == parts[0] + "." + parts[1] && '.' !in parts[0] && '.' !in parts[1]
  {
    JoinSplit(token, '.');
    SplitWithout(token, '.');
    assert Without(Split(token, '.'), '.');
  }

  /** A token is signed if and only if there is a secret and the claims say who, what and which action. */
  lemma {:induction false} SignExact(lib: Library, secret: string, c: Claims, issuedAt: int, expiresAt: int)
    ensures Sign(lib, secret, c, issuedAt, expiresAt) == Err(NoSecret) <==> TrimSpace(secret) == ""
    ensures Sign(lib, secret, c, issuedAt, expiresAt).Ok? <==>
              && TrimSpace(secret) != "" && c.objectID > 0
              && TrimSpace(c.recipient) != "" && TrimSpace(c.queueID) != ""
              && TrimSpace(c.sourceType) != "" && TrimSpace(c.action) != ""
  {
    hide TrimSpace, Encode;
    assert |MapChars(lib.lower, TrimSpace(c.action))| == |TrimSpace(c.action)|;
  }

  /** A signed token verifies to the normalised claims up to its expiry, and only up to it. */
  lemma {:induction false} VerifyInvertsSign(lib: Library, secret: string, c: Claims, issuedAt: int, expiresAt: int, now: int)
    requires Faithful(lib) && Sign(lib, secret, c, issuedAt, expiresAt).Ok?
    ensures Verify(lib, Sign(lib, secret, c, issuedAt, expiresAt).value, secret, now)
         == if Unix(now) <= Unix(expiresAt) then Ok(Normalised(lib, c, issuedAt, expiresAt)) else Err(Expired)
  {
    var n := Normalised(lib, c, issuedAt, expiresAt);
    var payload := Encode(lib.marshal(n));
    var signature := Signature(lib, secret, payload);
    EncodeHasNoStop(lib.marshal(n));
    EncodeHasNoStop(lib.mac(secret, payload));
    SplitsInTwo(payload, signature);
    DecodeInvertsEncode(lib.marshal(n));
    TrimTwice(c.recipient);
    TrimTwice(c.queueID);
    hide Encode, Decode, Split, TrimSpace, MapChars;
  }

  /** Field by field, what a token that was signed and is still current verifies to. */
  lemma {:induction false} VerifiedClaims(lib: Library, secret: string, c: Claims, issuedAt: int, expiresAt: int, now: int)
    requires Faithful(lib) && Sign(lib, secret, c, issuedAt, expiresAt).Ok? && now <= expiresAt
    ensures var r := Verify(lib, Sign(lib, secret, c, issuedAt, expiresAt).value, secret, now);
            && r.Ok?
            && r.value.version == 1 && r.value.objectID == c.objectID
            && r.value.recipient == TrimSpace(c.recipient) && r.value.queueID == TrimSpace(c.queueID)
            && r.value.sourceType == TrimSpace(c.sourceType) && r.value.reason == TrimSpace(c.reason)
            && |r.value.action| == |TrimSpace(c.action)|
            && (forall i | 0 <= i < |r.value.action| :: r.value.action[i] == lib.lower(TrimSpace(c.action)[i]))
            && r.value.policyHash == c.policyHash && r.value.runtimeHash == c.runtimeHash
            && r.value.issuedAt == issuedAt / 1_000_000_000 && r.value.expiresAt == expiresAt / 1_000_000_000
  {
    VerifyInvertsSign(lib, secret, c, issuedAt, expiresAt, now);
    hide Sign, Verify, TrimSpace;
  }

  /** The one payload and claims that an accepted token stands for. */
  ghost predicate Accepts(lib: Library, token: string, secret: string, now: int, payload: string, c: Claims) {
    && TrimSpace(secret) != ""
    && payload != "" && '.' !in payload
    && token == payload + "." + Signature(lib, secret, payload)
    && Decode(payload).Some? && lib.unmarshal(Decode(payload).value) == Some(c)
    && c.version == 1 && now / 1_000_000_000 <= c.expiresAt
    && TrimSpace(c.recipient) != "" && TrimSpace(c.queueID) != "" && c.objectID > 0
  }

  /** A token is accepted exactly when it is a payload followed by that payload's own signature, and
    * the payload's claims are current and complete. */
  lemma {:induction false} VerifyExact(lib: Library, token: string, secret: string, now: int, c: Claims)
    requires Faithful(lib)
    ensures Verify(lib, token, secret, now) == Ok(c)
       <==> exists payload :: Accepts(lib, token, secret, now, payload, c)
  {
    if Verify(lib, token, secret, now) == Ok(c) {
      TwoParts(token);
      hide Split, Decode, Signature, TrimSpace;
      assert Accepts(lib, token, secret, now, Split(token, '.')[0], c);
    }
    if payload :| Accepts(lib, token, secret, now, payload, c) {
      var signature := Signature(lib, secret, payload);
      EncodeHasNoStop(lib.mac(secret, payload));
      assert signature != "";
      SplitsInTwo(payload, signature);
      hide Split, Decode, Signature, TrimSpace;
    }
  }
}
