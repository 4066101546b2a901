/**
 * The token service of backend/controllers/authController.js: JSON Web Tokens signed with
 * one of two secrets and carrying an expiry (`exp`, section 4.1.4 of RFC 7519).
 * Signatures are not modelled as cryptography: a token either was signed with the secret of
 * one class, or it is `Malformed`, which stands for any other truthy value (tampered, forged,
 * or a non-empty string that is not a JWT). A falsy value (missing, `null`, "") is not a token
 * at all; the handlers receive it as `None`. The two secrets are taken to differ.
 */
module Tokens {
  import opened Wrappers

  type UserId = nat

  /** Seconds since the epoch, the unit of the `iat` and `exp` claims. */
  type Time = nat

  /** Which secret signed the token: JWT_SECRET or REFRESH_TOKEN_SECRET. */
  datatype TokenClass = Access | Refresh

  /** `expiresIn: "15m"`. */
  const AccessLifetime: nat := 15 * 60

  /** `expiresIn: "7d"`. */
  const RefreshLifetime: nat := 7 * 24 * 60 * 60

  datatype Jwt =
    | Signed(id: UserId, cls: TokenClass, exp: Time)
    | Malformed

  datatype VerifyError = InvalidSignature | Expired

  /**
   * `jwt.verify(token, secret)`: the signature (and so the class) is checked first, the expiry
   * after it; a token is expired once the clock has reached `exp`.
   */
  function Verify(t: Jwt, secret: TokenClass, now: Time): (r: Result<UserId, VerifyError>)
    ensures r.Ok? <==> t.Signed? && t.cls == secret && now < t.exp
    ensures r.Ok? ==> r.value == t.id
    ensures r == Err(Expired) <==> t.Signed? && t.cls == secret && t.exp <= now
  {
    if !t.Signed? || t.cls != secret then Err(InvalidSignature)
    else if t.exp <= now then Err(Expired)
    else Ok(t.id)
  }

  /** `generateAccessToken`: the token verifies under the access secret for fifteen minutes only. */
  function GenerateAccessToken(id: UserId, now: Time): (t: Jwt)
    ensures forall at: Time :: Verify(t, Access, at) == if at < now + AccessLifetime then Ok(id) else Err(Expired)
    ensures forall at: Time :: Verify(t, Refresh, at) == Err(InvalidSignature)
  {
    Signed(id, Access, now + AccessLifetime)
  }

  /** `generateRefreshToken`: the token verifies under the refresh secret for seven days only. */
  function GenerateRefreshToken(id: UserId, now: Time): (t: Jwt)
    ensures forall at: Time :: Verify(t, Refresh, at) == if at < now + RefreshLifetime then Ok(id) else Err(Expired)
    ensures forall at: Time :: Verify(t, Access, at) == Err(InvalidSignature)
  {
    Signed(id, Refresh, now + RefreshLifetime)
  }

  /** A pair issued together names the same user, and neither token can stand in for the other. */
  lemma IssuedPairAgrees(id: UserId, now: Time)
    ensures GenerateAccessToken(id, now).id == GenerateRefreshToken(id, now).id == id
    ensures GenerateAccessToken(id, now) != GenerateRefreshToken(id, now)
    ensures GenerateAccessToken(id, now).exp < GenerateRefreshToken(id, now).exp
  {
  }
}
