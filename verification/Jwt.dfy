/**
 * JSON Web Tokens as records. A signature is represented by the key that made it, so a
 * token verifies under a key only when that key signed it; the claim checks are those of
 * section 4.1 of RFC 7519, in the order the JOSE library applies them.
 */
module Jwt {
  import opened Domain

  datatype KeyClass = StepUpKey | DelegatedAuthorityKey
  datatype KeyPair = KeyPair(kid: string, keyClass: KeyClass, key: Id)

  datatype Claims = Claims(
    iss: string, aud: seq<string>, sub: Option<Id>, iat: int, exp: int, nbf: Option<int>,
    jti: Option<Id>, operationKind: Option<string>)

  /** `signer == None`: no key of the service made this signature. */
  datatype Token = Token(signer: Option<Id>, claims: Claims)

  datatype VerifyError = SignatureFailed | ClaimFailed | TokenExpired
  datatype VerifyResult = Verified(claims: Claims) | Rejected(error: VerifyError)

  function Seconds(now: Time): int {
    now / SECOND_MS
  }

  function VerifyClaims(c: Claims, issuer: string, audience: string, now: Time): VerifyResult {
    if c.iss != issuer || audience !in c.aud then Rejected(ClaimFailed)
    else if c.nbf.Some? && c.nbf.value > Seconds(now) then Rejected(ClaimFailed)
    else if c.exp <= Seconds(now) then Rejected(TokenExpired)
    else Verified(c)
  }

  function VerifyToken(t: Token, key: Id, issuer: string, audience: string, now: Time): VerifyResult {
    if t.signer != Some(key) then Rejected(SignatureFailed)
    else VerifyClaims(t.claims, issuer, audience, now)
  }
}
