/** Token issuance (`POST /jwt`, index.js:37-43) and verification (`jwt.verify`, index.js:51).
    The signing library is opaque: a token is the value it signs (payload, issue and expiry
    times, the key), and `Codec` is the library's serialisation of that value to the compact
    string a client carries. */
module Tokens {
  import opened Wrappers

  /** `expiresIn: "1h"`, in seconds. */
  const Lifetime: int := 3600

  /** The payload a token carries: the `POST /jwt` request body, signed verbatim.
      `email` is `None` when the body has no `email` field. The `iat` and `exp` the library
      adds to the payload are kept in `Token`, not here. */
  datatype Claims = Claims(email: Option<string>, other: map<string, string>)

  /** What the library signs: the payload plus `iat` and `exp` (seconds), and the key used. */
  datatype Token = Token(claims: Claims, issuedAt: int, expiresAt: int, signingKey: string)

  /** The library's compact serialisation: `encode` signs and serialises, `decode` parses
      a string back into what was signed (`None` when it is malformed). */
  datatype Codec = Codec(encode: Token -> string, decode: string -> Option<Token>)

  /** What the model relies on from the library: a serialised token is non-empty,
      holds no space (it is base64url with dots) and decodes to what was signed; and a
      string that decodes at all is the serialisation of what it decodes to, so a string
      nobody signed cannot pass for a token signed with the server's key. */
  ghost predicate Faithful(c: Codec)
  {
    && (forall t: Token :: c.decode(c.encode(t)) == Some(t) && c.encode(t) != [] && ' ' !in c.encode(t))
    && (forall s: string :: c.decode(s).Some? ==> c.encode(c.decode(s).value) == s)
  }

  /** Claims `jwt.sign` validates in a payload before signing: `iat` and `nbf` must be
      numbers, and `exp` may not be given together with `expiresIn`. */
  const ReservedClaims: set<string> := {"iat", "nbf", "exp"}

  /** A body `jwt.sign` accepts. Every field of `other` is a string, so any reserved claim
      in it makes signing throw. */
  predicate Signable(body: Claims)
  {
    forall k :: k in ReservedClaims ==> k !in body.other
  }

  /** `jwt.sign(body, secret, {expiresIn: "1h"})` at time `now`. */
  function Sign(body: Claims, secret: string, now: int): (t: Token)
    ensures t.expiresAt - t.issuedAt == Lifetime
  {
    Token(body, now, now + Lifetime, secret)
  }

  /** Why `jwt.verify` calls back with an error. */
  datatype VerifyError = NotProvided | Malformed | InvalidSignature | Expired

  datatype Verdict = Verified(claims: Claims) | Rejected(error: VerifyError)

  /** `jwt.verify(token, secret)` at time `now`: a missing (`undefined`) or empty token is
      "jwt must be provided"; then the string must parse, carry a signature made with
      `secret`, and not be expired (`now >= exp` is expired). */
  function Verify(c: Codec, token: Option<string>, secret: string, now: int): (v: Verdict)
    ensures v.Verified? ==>
      && token.Some? && c.decode(token.value).Some?
      && c.decode(token.value).value.signingKey == secret
      && now < c.decode(token.value).value.expiresAt
      && v.claims == c.decode(token.value).value.claims
    ensures token.None? ==> v == Rejected(NotProvided)
  {
    if token.None? || token.value == "" then Rejected(NotProvided)
    else match c.decode(token.value)
      case None => Rejected(Malformed)
      case Some(t) =>
        if t.signingKey != secret then Rejected(InvalidSignature)
        else if now >= t.expiresAt then Rejected(Expired)
        else Verified(t.claims)
  }

  /** Only what the server itself signed passes: a string that verifies is the
      serialisation of a token signed with the server's secret, not yet expired, and the
      claims handed back are that token's. */
  lemma VerifiedMeans(c: Codec, s: string, secret: string, now: int)
    requires Faithful(c)
    ensures Verify(c, Some(s), secret, now).Verified? ==>
      exists t: Token :: s == c.encode(t) && t.signingKey == secret && now < t.expiresAt
                         && Verify(c, Some(s), secret, now).claims == t.claims
  {
    if Verify(c, Some(s), secret, now).Verified? {
      var t := c.decode(s).value;
      assert s == c.encode(t);
    }
  }

  /** A tampered token is rejected: a string that is not the serialisation of any token
      signed with the server's secret never verifies. */
  lemma TamperedRejected(c: Codec, s: string, secret: string, now: int)
    requires Faithful(c)
    requires forall t: Token :: s == c.encode(t) ==> t.signingKey != secret
    ensures Verify(c, Some(s), secret, now).Rejected?
  {
    VerifiedMeans(c, s, secret, now);
  }

  /** A token issued at `issuedAt` verifies, yielding the signed body, exactly until one hour later. */
  lemma {:induction false} IssueThenVerify(c: Codec, body: Claims, secret: string, issuedAt: int, now: int)
    requires Faithful(c)
    ensures Verify(c, Some(c.encode(Sign(body, secret, issuedAt))), secret, now)
      == if now < issuedAt + Lifetime then Verified(body) else Rejected(Expired)
  {
    var t := Sign(body, secret, issuedAt);
    assert c.decode(c.encode(t)) == Some(t) && c.encode(t) != [];
  }

  /** A token signed with any other key is rejected, whatever its payload and expiry. */
  lemma {:induction false} ForeignKeyRejected(c: Codec, t: Token, secret: string, now: int)
    requires Faithful(c)
    requires t.signingKey != secret
    ensures Verify(c, Some(c.encode(t)), secret, now) == Rejected(InvalidSignature)
  {
    assert c.decode(c.encode(t)) == Some(t) && c.encode(t) != [];
  }
}
