/** The step-up token verifier (src/services/stepupVerifier.ts). */
module StepupVerifier {
  import opened Domain
  import opened Jwt
  import opened StepUpTokens

  datatype InvalidReason =
    SignatureInvalid | WrongAudience | WrongSubject | WrongOperationKind | ReplayDetected | Malformed
  datatype Verification = Valid(jti: Id, claims: Claims) | Invalid(reason: InvalidReason) | TokenHasExpired

  datatype Expectation = Expectation(audience: string, subject: Id, operationKind: string)

  /** How the key loop ends: with the claims of the first key that verifies, or with the error of the last key tried. */
  datatype LoopEnd = Found(claims: Claims) | NoneVerified(lastErr: Option<VerifyError>)

  function TryKeys(keys: seq<KeyPair>, lastErr: Option<VerifyError>, issuer: string, t: Token, audience: string,
      now: Time): LoopEnd {
    if keys == [] then NoneVerified(lastErr)
    else match VerifyToken(t, keys[0].key, issuer, audience, now)
      case Verified(c) => Found(c)
      case Rejected(e) => TryKeys(keys[1..], Some(e), issuer, t, audience, now)
  }

  function Judge(end: LoopEnd, want: Expectation): Verification {
    match end
    case NoneVerified(e) =>
      if e == Some(TokenExpired) then TokenHasExpired
      else if e == Some(ClaimFailed) then Invalid(WrongAudience)
      else Invalid(SignatureInvalid)
    case Found(c) =>
      if c.sub != Some(want.subject) then Invalid(WrongSubject)
      else if c.operationKind != Some(want.operationKind) then Invalid(WrongOperationKind)
      else if c.jti.None? then Invalid(Malformed)
      else Valid(c.jti.value, c)
  }

  function Inspected(keys: seq<KeyPair>, issuer: string, t: Token, want: Expectation, now: Time): Verification {
    Judge(TryKeys(keys, None, issuer, t, want.audience, now), want)
  }

  predicate SignedByOneOf(keys: seq<KeyPair>, t: Token) {
    exists i :: 0 <= i < |keys| && t.signer == Some(keys[i].key)
  }

  /** The error left over when no key verifies: that of the last key tried. */
  function LeftOver(keys: seq<KeyPair>, lastErr: Option<VerifyError>, t: Token,
      check: VerifyResult): Option<VerifyError> {
    if keys == [] then lastErr
    else if t.signer == Some(keys[|keys| - 1].key) && check.Rejected? then Some(check.error)
    else Some(SignatureFailed)
  }

  lemma {:induction false} LoopOutcome(keys: seq<KeyPair>, lastErr: Option<VerifyError>, issuer: string, t: Token,
      audience: string, now: Time)
    ensures var end, check := TryKeys(keys, lastErr, issuer, t, audience, now),
        VerifyClaims(t.claims, issuer, audience, now);
      && (end.Found? <==> SignedByOneOf(keys, t) && check.Verified?)
      && (end.Found? ==> end.claims == t.claims)
      && (end.NoneVerified? ==> end.lastErr == LeftOver(keys, lastErr, t, check))
  {
    if keys != [] {
      var e := VerifyToken(t, keys[0].key, issuer, audience, now);
      if e.Rejected? {
        LoopOutcome(keys[1..], Some(e.error), issuer, t, audience, now);
        assert SignedByOneOf(keys[1..], t) ==> SignedByOneOf(keys, t) by {
          if SignedByOneOf(keys[1..], t) {
            var i :| 0 <= i < |keys| - 1 && t.signer == Some(keys[1..][i].key);
            assert t.signer == Some(keys[i + 1].key);
          }
        }
        assert SignedByOneOf(keys, t) ==> t.signer == Some(keys[0].key) || SignedByOneOf(keys[1..], t) by {
          if SignedByOneOf(keys, t) {
            var i :| 0 <= i < |keys| && t.signer == Some(keys[i].key);
            assert i > 0 ==> t.signer == Some(keys[1..][i - 1].key);
          }
        }
      } else {
        assert t.signer == Some(keys[0].key);
      }
    }
  }

  /**
   * A token is accepted exactly when one of the keys signed it and every claim holds; which key,
   * and the order of the keys, do not matter.
   */
  lemma AcceptedExactlyWhen(keys: seq<KeyPair>, issuer: string, t: Token, want: Expectation, now: Time)
    ensures Inspected(keys, issuer, t, want, now).Valid? <==>
      && SignedByOneOf(keys, t)
      && t.claims.iss == issuer && want.audience in t.claims.aud && t.claims.sub == Some(want.subject)
      && t.claims.operationKind == Some(want.operationKind) && t.claims.jti.Some?
      && t.claims.exp > Seconds(now) && (t.claims.nbf.Some? ==> t.claims.nbf.value <= Seconds(now))
    ensures Inspected(keys, issuer, t, want, now).Valid? ==>
      Inspected(keys, issuer, t, want, now) == Valid(t.claims.jti.value, t.claims)
  {
    LoopOutcome(keys, None, issuer, t, want.audience, now);
  }

  /**
   * `expired` is reported exactly when the token is genuine but out of date and the key
   * that signed it is the last in the list: an error of an earlier key is overwritten.
   * With the single key the service is wired with (src/index.ts:147) that is every expired token.
   */
  lemma ExpiredExactlyWhen(keys: seq<KeyPair>, issuer: string, t: Token, want: Expectation, now: Time)
    ensures Inspected(keys, issuer, t, want, now).TokenHasExpired? <==>
      keys != [] && t.signer == Some(keys[|keys| - 1].key) &&
          VerifyClaims(t.claims, issuer, want.audience, now) == Rejected(TokenExpired)
  {
    LoopOutcome(keys, None, issuer, t, want.audience, now);
    if keys != [] && t.signer == Some(keys[|keys| - 1].key) {
      assert SignedByOneOf(keys, t);
    }
  }

  /** A token genuine for one of the keys and in time, though not necessarily the one asked for. */
  predicate Sound(keys: seq<KeyPair>, issuer: string, t: Token, want: Expectation, now: Time) {
    && SignedByOneOf(keys, t) && t.claims.iss == issuer && want.audience in t.claims.aud
    && t.claims.exp > Seconds(now) && (t.claims.nbf.Some? ==> t.claims.nbf.value <= Seconds(now))
  }

  /** What is reported of a token that is sound but not the one asked for, and of one that no key signed. */
  lemma InvalidExactlyWhen(keys: seq<KeyPair>, issuer: string, t: Token, want: Expectation, now: Time)
    ensures var v := Inspected(keys, issuer, t, want, now);
      && (v == Invalid(WrongSubject) <==>
          Sound(keys, issuer, t, want, now) && t.claims.sub != Some(want.subject))
      && (v == Invalid(WrongOperationKind) <==>
          Sound(keys, issuer, t, want, now) && t.claims.sub == Some(want.subject) &&
          t.claims.operationKind != Some(want.operationKind))
      && (v == Invalid(Malformed) <==>
          Sound(keys, issuer, t, want, now) && t.claims.sub == Some(want.subject) &&
          t.claims.operationKind == Some(want.operationKind) && t.claims.jti.None?)
      && (v == Invalid(WrongAudience) ==>
          SignedByOneOf(keys, t) && VerifyClaims(t.claims, issuer, want.audience, now) == Rejected(ClaimFailed))
      && (!SignedByOneOf(keys, t) ==> v == Invalid(SignatureInvalid))
      && v != Invalid(ReplayDetected)
  {
    LoopOutcome(keys, None, issuer, t, want.audience, now);
  }

  /** With two keys, an expired token of the first one is reported as a bad signature. */
  lemma ExpiryMaskedByALaterKey() returns (keys: seq<KeyPair>, issuer: string, t: Token, want: Expectation, now: Time)
    ensures SignedByOneOf(keys, t) && VerifyClaims(t.claims, issuer, want.audience, now) == Rejected(TokenExpired)
    ensures Inspected(keys, issuer, t, want, now) == Invalid(SignatureInvalid)
  {
    keys := [KeyPair("a", StepUpKey, 1), KeyPair("b", StepUpKey, 2)];
    t := Token(Some(1), Claims("iss", ["aud"], Some(5), 0, 10, None, Some(9), Some("kind")));
    issuer, want, now := "iss", Expectation("aud", 5, "kind"), 20000;
    assert t.signer == Some(keys[0].key);
    assert VerifyClaims(t.claims, issuer, want.audience, now) == Rejected(TokenExpired);
    LoopOutcome(keys, None, issuer, t, want.audience, now);
  }

  class StepupVerifier {
    const jwtKeys: seq<KeyPair>
    const issuer: string
    const stepUpTokensRepo: StepUpTokensRepo

    constructor (jwtKeys: seq<KeyPair>, issuer: string, stepUpTokensRepo: StepUpTokensRepo)
      ensures this.jwtKeys == jwtKeys && this.issuer == issuer && this.stepUpTokensRepo == stepUpTokensRepo
    {
      this.jwtKeys, this.issuer, this.stepUpTokensRepo := jwtKeys, issuer, stepUpTokensRepo;
    }

    method Inspect(t: Token, want: Expectation, now: Time) returns (r: Verification)
      ensures r == Inspected(jwtKeys, issuer, t, want, now)
    {
      var payload: Option<Claims> := None;
      var lastErr: Option<VerifyError> := None;
      var i := 0;
      while i < |jwtKeys| && payload.None?
        invariant 0 <= i <= |jwtKeys|
        invariant TryKeys(jwtKeys, None, issuer, t, want.audience, now) ==
          if payload.Some? then Found(payload.value) else TryKeys(jwtKeys[i..], lastErr, issuer, t, want.audience, now)
      {
        var result := VerifyToken(t, jwtKeys[i].key, issuer, want.audience, now);
        match result {
          case Verified(c) => payload := Some(c);
          case Rejected(e) => lastErr := Some(e);
        }
        i := i + 1;
      }
      if payload.None? {
        if lastErr == Some(TokenExpired) { return TokenHasExpired; }
        if lastErr == Some(ClaimFailed) { return Invalid(WrongAudience); }
        return Invalid(SignatureInvalid);
      }
      if payload.value.sub != Some(want.subject) { return Invalid(WrongSubject); }
      if payload.value.operationKind != Some(want.operationKind) { return Invalid(WrongOperationKind); }
      if payload.value.jti.None? { return Invalid(Malformed); }
      return Valid(payload.value.jti.value, payload.value);
    }

    method Verify(t: Token, want: Expectation, now: Time) returns (r: Verification)
      modifies stepUpTokensRepo
      ensures var seen := Inspected(jwtKeys, issuer, t, want, now);
        && r == (if seen.Valid? && !Unspent(old(stepUpTokensRepo.data), seen.jti) then Invalid(ReplayDetected)
            else seen)
        && stepUpTokensRepo.data == if seen.Valid? then WithConsumed(old(stepUpTokensRepo.data), seen.jti, now)
            else old(stepUpTokensRepo.data)
    {
      r := Inspect(t, want, now);
      if !r.Valid? { return; }
      var marked := stepUpTokensRepo.MarkConsumed(r.jti, now);
      if !marked { return Invalid(ReplayDetected); }
    }
  }
}
