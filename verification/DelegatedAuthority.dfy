/** Delegated-authority signing (src/services/delegatedAuthoritySigner.ts). */
module DelegatedAuthority {
  import opened Domain
  import opened Jwt

  const TOKEN_CLASS := "delegated_authority"
  const MAX_TTL_MONEY: int := 3600
  const MAX_TTL_IDENTITY: int := 900
  const MAX_TTL_READ_ONLY: int := 86400

  datatype ClaimSet = ClaimSet(
    iss: string, aud: seq<string>, sub: Id, iat: int, exp: int, jti: Id, tokenClass: string,
    agentId: Id, scopes: seq<string>, stepUpJti: Option<Id>)

  datatype SignOutcome = Signed(token: Token, signedAt: Time, expiresAt: Time) | Refused(error: ErrorCode)

  function ScopeTtlCap(scopeId: string): int {
    if "kipkiren.write." <= scopeId || "chapaa.write." <= scopeId then MAX_TTL_MONEY
    else if "chapaa.mmf." <= scopeId then MAX_TTL_MONEY
    else if "identiti.write." <= scopeId then MAX_TTL_IDENTITY
    else if scopeId == "chapaa.read.behavioural" then MAX_TTL_IDENTITY
    else MAX_TTL_READ_ONLY
  }

  function Min(a: int, b: int): int {
    if a < b then a else b
  }

  /** The smallest cap over `scopes`, and the read-only cap when there are none. */
  function TightestCap(scopes: seq<string>): int {
    if scopes == [] then MAX_TTL_READ_ONLY
    else Min(ScopeTtlCap(scopes[0]), TightestCap(scopes[1..]))
  }

  lemma {:induction false} TightestCapConcat(a: seq<string>, b: seq<string>)
    ensures TightestCap(a + b) == Min(TightestCap(a), TightestCap(b))
  {
    if a == [] {
      assert a + b == b;
      TightestCapBounds(b);
    } else {
      assert (a + b)[1..] == a[1..] + b;
      TightestCapConcat(a[1..], b);
    }
  }

  /** A lower bound of every scope's cap, and one that some scope attains. */
  lemma {:induction false} TightestCapBounds(scopes: seq<string>)
    ensures forall s :: s in scopes ==> TightestCap(scopes) <= ScopeTtlCap(s)
    ensures TightestCap(scopes) <= MAX_TTL_READ_ONLY
    ensures scopes != [] ==> exists s :: s in scopes && ScopeTtlCap(s) == TightestCap(scopes)
  {
    if scopes != [] {
      TightestCapBounds(scopes[1..]);
      assert scopes[0] in scopes;
      if TightestCap(scopes) != ScopeTtlCap(scopes[0]) && scopes[1..] != [] {
        var s :| s in scopes[1..] && ScopeTtlCap(s) == TightestCap(scopes[1..]);
        assert s in scopes;
      }
    }
  }

  /** The order of the scopes is irrelevant, and so are repetitions. */
  lemma TightestCapDependsOnTheSetOnly(a: seq<string>, b: seq<string>)
    requires forall s :: s in a <==> s in b
    ensures TightestCap(a) == TightestCap(b)
  {
    TightestCapBounds(a);
    TightestCapBounds(b);
    if a != [] { assert a[0] in b; }
    if b != [] { assert b[0] in a; }
  }

  predicate KnownKey(keys: seq<KeyPair>, kid: string) {
    exists i :: 0 <= i < |keys| && Matches(keys[i], kid)
  }

  predicate Matches(k: KeyPair, kid: string) {
    k.keyClass == DelegatedAuthorityKey && k.kid == kid
  }

  /** `daKeys.find(...)`. */
  function FindKey(keys: seq<KeyPair>, kid: string): (r: Option<KeyPair>)
    ensures r.Some? <==> KnownKey(keys, kid)
    ensures r.Some? ==> r.value in keys && Matches(r.value, kid)
  {
    if keys == [] then None
    else if Matches(keys[0], kid) then Some(keys[0])
    else
      var r := FindKey(keys[1..], kid);
      assert KnownKey(keys, kid) ==> KnownKey(keys[1..], kid) by {
        if KnownKey(keys, kid) {
          var i :| 0 <= i < |keys| && Matches(keys[i], kid);
          assert Matches(keys[1..][i - 1], kid);
        }
      }
      assert KnownKey(keys[1..], kid) ==> KnownKey(keys, kid) by {
        if KnownKey(keys[1..], kid) {
          var i :| 0 <= i < |keys[1..]| && Matches(keys[1..][i], kid);
          assert Matches(keys[i + 1], kid);
        }
      }
      r
  }

  function SignedToken(key: Id, c: ClaimSet): Token {
    Token(Some(key), Claims(c.iss, c.aud, Some(c.sub), c.iat, c.exp, None, Some(c.jti), None))
  }

  /** The checks of `sign`, in their order. */
  function SignResult(keys: seq<KeyPair>, issuer: string, tolerance: int, kid: string, c: ClaimSet,
      now: Time): SignOutcome {
    var key := FindKey(keys, kid);
    if key.None? then Refused(KidUnknown)
    else if c.tokenClass != TOKEN_CLASS then Refused(WrongTokenClass)
    else if c.iss != issuer then Refused(IssuerMismatch)
    else if |c.scopes| == 0 then Refused(ScopesEmpty)
    else if c.iat > Seconds(now) + tolerance then Refused(IatInFuture)
    else if c.exp - c.iat <= 0 then Refused(ExpiryOutOfBounds)
    else if c.exp - c.iat > TightestCap(c.scopes) then Refused(ExpiryOutOfBounds)
    else Signed(SignedToken(key.value.key, c), c.iat * SECOND_MS, c.exp * SECOND_MS)
  }

  predicate MovesMoney(scope: string) {
    "kipkiren.write." <= scope || "chapaa.write." <= scope || "chapaa.mmf." <= scope
  }

  predicate TouchesIdentity(scope: string) {
    "identiti.write." <= scope || scope == "chapaa.read.behavioural"
  }

  /**
   * A scope permits a lifetime in seconds: an hour for money, a quarter of an hour for identity, a
   * day for the rest.
   */
  predicate Permits(scope: string, ttl: int) {
    && ttl <= 86400
    && (MovesMoney(scope) ==> ttl <= 3600)
    && (TouchesIdentity(scope) ==> ttl <= 900)
  }

  lemma CapIsWhatIsPermitted(scope: string, ttl: int)
    ensures ttl <= ScopeTtlCap(scope) <==> Permits(scope, ttl)
  {
    assert "identiti.write."[0] == 'i' && "kipkiren.write."[0] == 'k';
    assert "chapaa.write."[0] == 'c' && "chapaa.mmf."[0] == 'c';
    assert "chapaa.read.behavioural"[7] == 'r' && "chapaa.write."[7] == 'w' && "chapaa.mmf."[7] == 'm';
  }

  /**
   * Exactly when a claim set is signed: every scope it carries permits its lifetime. The
   * bound is stated scope by scope, with no minimum in sight.
   */
  lemma SignedExactlyWhenEveryScopeAllows(
      keys: seq<KeyPair>, issuer: string, tolerance: int, kid: string, c: ClaimSet, now: Time)
    ensures SignResult(keys, issuer, tolerance, kid, c, now).Signed? <==>
      && KnownKey(keys, kid) && c.tokenClass == "delegated_authority" && c.iss == issuer
      && c.scopes != [] && c.iat <= Seconds(now) + tolerance
      && 0 < c.exp - c.iat && forall s :: s in c.scopes ==> Permits(s, c.exp - c.iat)
  {
    TightestCapBounds(c.scopes);
    forall s | s in c.scopes ensures c.exp - c.iat <= ScopeTtlCap(s) <==> Permits(s, c.exp - c.iat) {
      CapIsWhatIsPermitted(s, c.exp - c.iat);
    }
  }

  /** The token is signed with a delegated-authority key of that name and says what was asked for, no more. */
  predicate RepeatsRequest(keys: seq<KeyPair>, kid: string, c: ClaimSet, t: Token) {
    && (exists k :: k in keys && k.kid == kid && k.keyClass == DelegatedAuthorityKey && t.signer == Some(k.key))
    && t.claims.iss == c.iss && t.claims.aud == c.aud && t.claims.sub == Some(c.sub)
    && t.claims.iat == c.iat && t.claims.exp == c.exp && t.claims.jti == Some(c.jti)
    && t.claims.nbf.None? && t.claims.operationKind.None?
  }

  /** Whatever is signed repeats the request, and each scope of it permits the token's own lifetime. */
  lemma SignedTokenRepeatsRequest(
      keys: seq<KeyPair>, issuer: string, tolerance: int, kid: string, c: ClaimSet, now: Time) returns (t: Token)
    requires SignResult(keys, issuer, tolerance, kid, c, now).Signed?
    ensures SignResult(keys, issuer, tolerance, kid, c, now) == Signed(t, c.iat * 1000, c.exp * 1000)
    ensures RepeatsRequest(keys, kid, c, t)
    ensures 0 < t.claims.exp - t.claims.iat
    ensures forall s :: s in c.scopes ==> Permits(s, t.claims.exp - t.claims.iat)
  {
    t := SignResult(keys, issuer, tolerance, kid, c, now).token;
    SignedExactlyWhenEveryScopeAllows(keys, issuer, tolerance, kid, c, now);
  }

  /** Each refusal names the first check that fails. */
  lemma SignRefusalsAreTruthful(
      keys: seq<KeyPair>, issuer: string, tolerance: int, kid: string, c: ClaimSet, now: Time)
    ensures var r := SignResult(keys, issuer, tolerance, kid, c, now);
      var ttl := c.exp - c.iat;
      && (r == Refused(KidUnknown) <==> !KnownKey(keys, kid))
      && (r == Refused(WrongTokenClass) ==> c.tokenClass != "delegated_authority")
      && (r == Refused(IssuerMismatch) ==> c.iss != issuer)
      && (r == Refused(ScopesEmpty) ==> c.scopes == [])
      && (r == Refused(IatInFuture) ==> c.iat > Seconds(now) + tolerance)
      && (r == Refused(ExpiryOutOfBounds) ==> ttl <= 0 || exists s :: s in c.scopes && !Permits(s, ttl))
      && (r.Refused? ==>
          r.error in {KidUnknown, WrongTokenClass, IssuerMismatch, ScopesEmpty, IatInFuture, ExpiryOutOfBounds})
  {
    TightestCapBounds(c.scopes);
    forall s | s in c.scopes ensures c.exp - c.iat <= ScopeTtlCap(s) <==> Permits(s, c.exp - c.iat) {
      CapIsWhatIsPermitted(s, c.exp - c.iat);
    }
  }

  /** Joining two scope lists can only shorten what is allowed: the joint request passes only if both parts pass. */
  lemma JointRequestIsNoLooser(
      keys: seq<KeyPair>, issuer: string, tolerance: int, kid: string, c: ClaimSet, extra: seq<string>, now: Time)
    requires c.scopes != [] && extra != []
    ensures SignResult(keys, issuer, tolerance, kid, c.(scopes := c.scopes + extra), now).Signed? <==>
      && SignResult(keys, issuer, tolerance, kid, c, now).Signed?
      && SignResult(keys, issuer, tolerance, kid, c.(scopes := extra), now).Signed?
  {
    TightestCapConcat(c.scopes, extra);
  }

  class DelegatedAuthoritySigner {
    const daKeys: seq<KeyPair>
    const expectedIssuer: string
    const tolerance: int

    constructor (daKeys: seq<KeyPair>, expectedIssuer: string, tolerance: int := 60)
      ensures this.daKeys == daKeys && this.expectedIssuer == expectedIssuer && this.tolerance == tolerance
    {
      this.daKeys := daKeys;
      this.expectedIssuer := expectedIssuer;
      this.tolerance := tolerance;
    }

    static method MaxTtlForScopes(scopes: seq<string>) returns (cap: int)
      ensures cap == TightestCap(scopes)
    {
      cap := MAX_TTL_READ_ONLY;
      for i := 0 to |scopes|
        invariant cap == TightestCap(scopes[..i])
      {
        var c := ScopeTtlCap(scopes[i]);
        assert scopes[..i + 1] == scopes[..i] + [scopes[i]];
        TightestCapConcat(scopes[..i], [scopes[i]]);
        if c < cap { cap := c; }
      }
      assert scopes[..|scopes|] == scopes;
    }

    method Sign(kid: string, claims: ClaimSet, now: Time) returns (r: SignOutcome)
      ensures r == SignResult(daKeys, expectedIssuer, tolerance, kid, claims, now)
    {
      var keyPair := FindKey(daKeys, kid);
      if keyPair.None? { return Refused(KidUnknown); }
      if claims.tokenClass != TOKEN_CLASS { return Refused(WrongTokenClass); }
      if claims.iss != expectedIssuer { return Refused(IssuerMismatch); }
      if |claims.scopes| == 0 { return Refused(ScopesEmpty); }
      if claims.iat > Seconds(now) + tolerance { return Refused(IatInFuture); }
      var ttl := claims.exp - claims.iat;
      var maxTtl := MaxTtlForScopes(claims.scopes);
      if ttl <= 0 { return Refused(ExpiryOutOfBounds); }
      if ttl > maxTtl { return Refused(ExpiryOutOfBounds); }
      return Signed(SignedToken(keyPair.value.key, claims), claims.iat * SECOND_MS, claims.exp * SECOND_MS);
    }
  }
}
