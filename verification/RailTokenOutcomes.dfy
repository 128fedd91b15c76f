/**
 * Which requests create a challenge and which get a token, what the token says, and what a refusal
 * leaves behind: step-up, login, audience and delegated-authority tokens.
 */
module RailTokenOutcomes {
  import opened Domain
  import opened Jwt
  import opened Rail
  import opened RailAuthority
  import opened RailOutcomes
  import AC = AuthChallenges
  import SU = StepUpTokens
  import Cust = Customers
  import DA = DelegatedAuthority
  import SV = StepupVerifier
  import Req = StepupRequests
  import Crypto = PhoneCrypto
  import PhoneNormalise
  import RailTheorems

  // Answering a challenge.

  /** The overdue challenge is marked, and nothing else is written. */
  predicate Expires(s: State, s': State, id: Id)
    requires id in s.challenges
  {
    s' == s.(challenges := s.challenges[id := s.challenges[id].(status := AC.Expired, consumedAt := None)])
  }

  /** A success is recorded in the row and in the history. */
  predicate Consumes(s: State, s': State, id: Id, now: Time)
    requires id in s.challenges
  {
    var c := s.challenges[id];
    && s'.challenges == s.challenges[id := c.(
        attemptsUsed := c.attemptsUsed + 1, status := AC.Consumed, consumedAt := Some(now))]
    && s'.answered == s.answered + {id}
    && s'.customers == s.customers && s'.changes == s.changes && s'.signings == s.signings
    && s'.accountEvents == s.accountEvents && s'.phoneEvents == s.phoneEvents
  }

  /** Only the count of failed answers changed. */
  predicate Fails(s: State, s': State, id: Id, now: Time)
    requires id in s.challenges
  {
    s' == s.(challenges := s'.challenges) && CountsFailure(s.challenges, s'.challenges, id, now)
  }

  predicate Pending(s: State, id: Id, purpose: AC.Purpose) {
    id in s.challenges && s.challenges[id].info.purpose == purpose && s.challenges[id].status == AC.Pending
  }

  /** A challenge that a correct answer turns into a step-up token at `now`. */
  predicate Answerable(c: AC.Challenge, now: Time) {
    && c.info.purpose == AC.StepUp && c.status == AC.Pending && now < c.info.expiresAt && Req.BoundToOperation(c.info)
    && (c.info.operatorUserId.Some? ==> c.info.factorData.Some?)
  }

  /** The right kind of answer for the subject, and a correct one. */
  predicate Correct(c: AC.Challenge, r: AC.FactorResponse) {
    r == if c.info.operatorUserId.Some? then AC.Assertion(true) else AC.TextCode(true)
  }

  /** The claims of a step-up token for challenge `c`, minted at `now` and running out at `exp`. */
  predicate SaysChallenge(env: Env, c: AC.ChallengeInfo, t: Token, now: Time, exp: Time) {
    && t.signer == Some(env.signingKey) && t.claims.iss == env.issuer
    && c.operationAudience.Some? && t.claims.aud == [c.operationAudience.value]
    && t.claims.sub == (if c.accountId.Some? then c.accountId else c.operatorUserId) && t.claims.sub.Some?
    && t.claims.iat == Seconds(now) && t.claims.nbf == Some(Seconds(now)) && t.claims.exp == Seconds(exp)
    && t.claims.jti == Some(c.id) && c.intendedOperation.Some? && t.claims.operationKind == c.intendedOperation
  }

  /** The row and the signed token that a mint adds, field by field. */
  lemma MintedSaysChallenge(env: Env, c: AC.ChallengeInfo, now: Time)
    requires Req.BoundToOperation(c)
    ensures var row := SU.Minted(c, now);
      && SU.CopiesChallenge(row, c) && row.iat == now && SU.LivesByRisk(row)
      && SaysChallenge(env, c, Token(Some(env.signingKey), StepupClaims(env.issuer, row)), now, row.exp)
  {}

  lemma MintedState(env: Env, s: State, id: Id, response: AC.FactorResponse, now: Time)
    requires id in s.challenges && s.challenges[id].info.id == id && id !in s.tokens
    requires Answerable(s.challenges[id], now) && Correct(s.challenges[id], response)
    ensures var r, row := AnswerStepup(env, s, id, response, now), SU.Minted(s.challenges[id].info, now);
      && r.reply == Ok(200) && Consumes(s, r.state, id, now)
      && r.state.tokens == s.tokens[id := SU.TokenRow(row, None)]
      && r.state.issued == s.issued + {Token(Some(env.signingKey), StepupClaims(env.issuer, row))}
  {}

  lemma MintsExactlyWhen(env: Env, s: State, id: Id, response: AC.FactorResponse, now: Time)
    requires ChallengesOk(s.challenges) && TokensOk(s.challenges, s.tokens, s.answered)
    ensures var r := AnswerStepup(env, s, id, response, now);
      && (r.reply == Ok(200) <==>
          id in s.challenges && Answerable(s.challenges[id], now) && Correct(s.challenges[id], response))
      && (r.reply != Ok(200) ==> r.reply.Error? && r.state.tokens == s.tokens && r.state.issued == s.issued)
      && (r.reply == Ok(200) ==> id !in s.tokens)
  {
    assert id in s.tokens ==> MintedFrom(s.challenges, s.answered, id, s.tokens[id]);
  }

  /**
   * A token is minted exactly when the challenge is answerable and the answer correct. The row
   * and the signed form added repeat the challenge, run from now for ten, five, three or one
   * minute by the risk of the operation, and are all that is added; the challenge is consumed.
   */
  lemma VerifyMintsExactlyWhen(env: Env, s: State, id: Id, response: AC.FactorResponse, now: Time)
    requires ChallengesOk(s.challenges) && TokensOk(s.challenges, s.tokens, s.answered)
    ensures var r := AnswerStepup(env, s, id, response, now);
      && (r.reply == Ok(200) <==>
          id in s.challenges && Answerable(s.challenges[id], now) && Correct(s.challenges[id], response))
      && (r.reply != Ok(200) ==> r.reply.Error? && r.state.tokens == s.tokens && r.state.issued == s.issued)
    ensures var r := AnswerStepup(env, s, id, response, now);
      r.reply == Ok(200) ==>
        && Consumes(s, r.state, id, now)
        && id !in s.tokens && id in r.state.tokens && r.state.tokens == s.tokens[id := r.state.tokens[id]]
        && var c, row := s.challenges[id].info, r.state.tokens[id];
        && row.consumedAt.None? && SU.CopiesChallenge(row.info, c) && row.info.iat == now
        && (c.riskTier == Some(AC.Low) ==> row.info.exp == now + 600 * 1000)
        && (c.riskTier == Some(AC.Medium) ==> row.info.exp == now + 300 * 1000)
        && (c.riskTier == Some(AC.High) ==> row.info.exp == now + 180 * 1000)
        && (c.riskTier == Some(AC.VeryHigh) ==> row.info.exp == now + 60 * 1000)
        && exists t :: r.state.issued == s.issued + {t} && SaysChallenge(env, c, t, now, row.info.exp)
  {
    MintsExactlyWhen(env, s, id, response, now);
    if AnswerStepup(env, s, id, response, now).reply == Ok(200) {
      MintedState(env, s, id, response, now);
      MintedSaysChallenge(env, s.challenges[id].info, now);
    }
  }

  /** Why no step-up token is minted: the answer for each reason, and what is written. */
  lemma VerifyRefusals(env: Env, s: State, id: Id, response: AC.FactorResponse, now: Time)
    requires ChallengesOk(s.challenges)
    ensures var r := AnswerStepup(env, s, id, response, now);
      && (!Pending(s, id, AC.StepUp) ==> r == Result(s, Error(401, AuthFactorFailed)))
      && (Pending(s, id, AC.StepUp) && s.challenges[id].info.expiresAt <= now ==>
          r.reply == Error(410, AuthChallengeExpired) && Expires(s, r.state, id))
      && (Pending(s, id, AC.StepUp) && now < s.challenges[id].info.expiresAt ==>
          var byOperator := s.challenges[id].info.operatorUserId.Some?;
          && (response.Assertion? != byOperator ==> r == Result(s, Error(400, AuthFactorUnsupported)))
          && (response == AC.TextCode(false) && !byOperator ==>
              r.reply == Error(401, AuthFactorFailed) && Fails(s, r.state, id, now))
          && (response == AC.Assertion(false) && byOperator && s.challenges[id].info.factorData.Some? ==>
              r.reply == Error(401, AuthFactorFailed) && Fails(s, r.state, id, now))
          && (response.Assertion? && byOperator && s.challenges[id].info.factorData.None? ==>
              r == Result(s, Error(500, InternalUnspecified)))
          && (response == AC.TextCode(true) && !Req.BoundToOperation(s.challenges[id].info) && !byOperator ==>
              r == Result(s, Error(500, InternalUnspecified))))
  {
    if id in s.challenges { assert Req.Creatable(s.challenges[id].info); }
  }

  /**
   * How long a minted phone-change token opens an initiate of its account: from the second it
   * was issued in, up to but not including the second in which its row runs out.
   */
  lemma MintedTokenLivesAsItsRow(env: Env, c: AC.ChallengeInfo, t: Token, now: Time, exp: Time, uuid: Id, at: Time)
    requires SaysChallenge(env, c, t, now, exp) && SV.SignedByOneOf(env.verifierKeys, t)
    requires c.intendedOperation == Some("identiti.phone_change")
    requires c.operationAudience == Some("https://api.id.identiti.co.ke") && c.accountId == Some(uuid)
    ensures Genuine(env, t, uuid, at) <==> Seconds(now) <= Seconds(at) < Seconds(exp)
  {}

  /**
   * In every run, for every phone-change token handed out: its row is stored, and whether the
   * verifier of initiate takes it at an instant `at` depends on the row alone.
   */
  lemma {:induction false} TokensLiveAsTheirRows(env: Env, ticks: seq<Tick>, t: Token, uuid: Id, at: Time)
    requires Crypto.Opens(env.crypto) && IsRun(env, ticks) && t in After(env, ticks).issued
    requires t.claims.operationKind == Some("identiti.phone_change") && SV.SignedByOneOf(env.verifierKeys, t)
    ensures var s := After(env, ticks);
      && t.claims.jti.Some? && t.claims.jti.value in s.tokens
      && var i := s.tokens[t.claims.jti.value].info;
      && SU.LivesByRisk(i)
      && (Genuine(env, t, uuid, at) <==>
          && i.accountUuid == Some(uuid) && i.audience == "https://api.id.identiti.co.ke"
          && Seconds(i.iat) <= Seconds(at) < Seconds(i.exp))
  {
    RailTheorems.RunKeepsInv(env, ticks);
    var s := After(env, ticks);
    assert Backed(env.issuer, s.tokens, t);
    assert MintedFrom(s.challenges, s.answered, t.claims.jti.value, s.tokens[t.claims.jti.value]);
    KindIsNotForOperators();
  }

  // Bearer tokens.

  /** A token without an operation, from now for `seconds`. */
  predicate SaysBearer(env: Env, t: Token, accountId: Id, jti: Id, audience: seq<string>, now: Time, seconds: int) {
    && t.signer == Some(env.signingKey) && t.claims.iss == env.issuer && t.claims.aud == audience
    && t.claims.sub == Some(accountId) && t.claims.jti == Some(jti)
    && t.claims.iat == Seconds(now) && t.claims.exp == Seconds(now) + seconds
    && t.claims.nbf.None? && t.claims.operationKind.None?
  }

  /** A login that a right code completes at `now`. */
  predicate LoginOpen(s: State, id: Id, now: Time) {
    Pending(s, id, AC.Login) && now < s.challenges[id].info.expiresAt && s.challenges[id].info.otpHash.Some?
  }

  /**
   * A login yields a token exactly when its challenge is pending, in time, has a code and an
   * account that still exists, and the code is right. It is a half-hour bearer token of that
   * account for two audiences, and all that is handed out.
   */
  lemma CustomerTokenIssuedExactlyWhen(
      env: Env, s: State, id: Id, response: AC.FactorResponse, jti: Id, audience: string, now: Time)
    ensures var r := CustomerToken(env, s, id, response, jti, audience, now);
      && (r.reply == Ok(200) <==>
          && LoginOpen(s, id, now) && response == AC.TextCode(true)
          && s.challenges[id].info.accountId.Some? && s.challenges[id].info.accountId.value in s.customers.accounts)
      && (r.reply == Ok(200) ==>
          && Consumes(s, r.state, id, now) && r.state.tokens == s.tokens
          && exists t ::
            && r.state.issued == s.issued + {t}
            && SaysBearer(env, t, s.challenges[id].info.accountId.value, jti,
                          ["https://api.id.identiti.co.ke", audience], now, 1800))
      && (r.reply != Ok(200) ==> r.reply.Error? && r.state.issued == s.issued && r.state.tokens == s.tokens)
  {
    var r := CustomerToken(env, s, id, response, jti, audience, now);
    if r.reply == Ok(200) {
      var t := BearerToken(env, s.challenges[id].info.accountId.value, jti, [IDENTITI_AUDIENCE, audience],
          PRIMARY_TOKEN_TTL_SECONDS, now);
      assert r.state.issued == s.issued + {t};
      assert SaysBearer(env, t, s.challenges[id].info.accountId.value, jti,
                        ["https://api.id.identiti.co.ke", audience], now, 1800);
    }
  }

  /** Why a login yields none: the answer for each reason, and what is written. */
  lemma CustomerTokenRefusals(
      env: Env, s: State, id: Id, response: AC.FactorResponse, jti: Id, audience: string, now: Time)
    ensures var r := CustomerToken(env, s, id, response, jti, audience, now);
      && (!Pending(s, id, AC.Login) ==> r == Result(s, Error(401, AuthFactorFailed)))
      && (Pending(s, id, AC.Login) && s.challenges[id].info.expiresAt <= now ==>
          r.reply == Error(410, AuthChallengeExpired) && Expires(s, r.state, id))
      && (LoginOpen(s, id, now) && response.Assertion? ==> r == Result(s, Error(400, AuthFactorUnsupported)))
      && (LoginOpen(s, id, now) && response == AC.TextCode(false) ==>
          r.reply == Error(401, AuthFactorFailed) && Fails(s, r.state, id, now))
      && (LoginOpen(s, id, now) && response == AC.TextCode(true) && s.challenges[id].info.accountId.Some? &&
          s.challenges[id].info.accountId.value !in s.customers.accounts ==>
            r.reply == Error(404, CustomerNotFound) && Consumes(s, r.state, id, now))
  {}

  /**
   * An audience token is handed out exactly for the two whitelisted rails, a lifetime between a
   * minute and an hour, and an active account; it lasts a quarter of an hour unless asked otherwise.
   */
  lemma AudienceTokenIssuedExactlyWhen(
      env: Env, s: State, uuid: Id, audience: string, ttlSeconds: Option<int>, jti: Id, now: Time)
    ensures var r := AudienceToken(env, s, uuid, audience, ttlSeconds, jti, now);
      var permitted := audience == "https://hakken.co.ke" || audience == "https://api.helpan.co.ke";
      var ttlOk := ttlSeconds.Some? ==> 60 <= ttlSeconds.value <= 3600;
      && (r.reply == Ok(200) <==>
          permitted && ttlOk && uuid in s.customers.accounts && s.customers.accounts[uuid].state == Cust.Active)
      && (r.reply == Ok(200) ==> exists t ::
          && r.state == s.(issued := s.issued + {t})
          && SaysBearer(env, t, uuid, jti, [audience], now, if ttlSeconds.Some? then ttlSeconds.value else 900))
      && (r.reply != Ok(200) ==> r.state == s)
      && (r.reply == Error(403, TokenAudienceNotPermitted) <==> audience != "" && !permitted)
      && (r.reply == Error(400, ValidationRequestInvalid) <==> audience == "" || (permitted && !ttlOk))
      && (r.reply == Error(404, CustomerNotFound) <==> permitted && ttlOk && uuid !in s.customers.accounts)
      && (r.reply == Error(409, StateInvalidForAction) <==>
          permitted && ttlOk && uuid in s.customers.accounts && s.customers.accounts[uuid].state != Cust.Active)
  {
    var r := AudienceToken(env, s, uuid, audience, ttlSeconds, jti, now);
    assert CROSS_RAIL_AUDIENCE_WHITELIST[0] in CROSS_RAIL_AUDIENCE_WHITELIST;
    assert CROSS_RAIL_AUDIENCE_WHITELIST[1] in CROSS_RAIL_AUDIENCE_WHITELIST;
    if r.reply == Ok(200) {
      var ttl := if ttlSeconds.Some? then ttlSeconds.value else 900;
      var t := BearerToken(env, uuid, jti, [audience], ttl, now);
      assert SaysBearer(env, t, uuid, jti, [audience], now, ttl);
      assert r.state == s.(issued := s.issued + {t});
    }
  }

  // Delegated authority.

  /** The ledger row of a signing. */
  predicate RecordsSigning(g: SU.Signing, claims: DA.ClaimSet) {
    && g.jti == claims.jti && g.accountUuid == claims.sub && g.agentId == claims.agentId
    && g.stepUpJti == claims.stepUpJti && g.scopes == claims.scopes
    && g.signedAt == claims.iat * 1000 && g.expiresAt == claims.exp * 1000
  }

  /**
   * A delegated signing succeeds exactly when the caller is the pinned app, the account
   * exists, the step-up token it names (if any) is that account's and unspent, every scope
   * permits the lifetime asked for, and the identifier is new; a refusal never writes a
   * ledger row or hands out a token.
   */
  lemma SignSucceedsExactlyWhen(env: Env, s: State, appId: Id, kid: string, claims: DA.ClaimSet, now: Time)
    ensures var r := InternalSign(env, s, appId, kid, claims, now);
      && (r.reply == Ok(200) <==>
          && appId == env.helpanAiAppId && claims.sub in s.customers.accounts
          && (claims.stepUpJti.Some? ==>
              SU.Unspent(s.tokens, claims.stepUpJti.value) &&
                  s.tokens[claims.stepUpJti.value].info.accountUuid == Some(claims.sub))
          && DA.KnownKey(env.daKeys, kid) && claims.tokenClass == "delegated_authority" && claims.iss == env.issuer
          && claims.scopes != [] && claims.iat <= Seconds(now) + env.tolerance
          && 0 < claims.exp - claims.iat
          && (forall scope :: scope in claims.scopes ==> DA.Permits(scope, claims.exp - claims.iat))
          && claims.jti !in s.signings)
      && (r.reply != Ok(200) ==> r.reply.Error? && r.state.signings == s.signings && r.state.issued == s.issued)
  {
    DA.SignedExactlyWhenEveryScopeAllows(env.daKeys, env.issuer, env.tolerance, kid, claims, now);
  }

  /**
   * What a successful signing adds: one token that repeats the request, signed with a
   * delegated-authority key of that name, whose own lifetime is within what each scope permits;
   * one ledger row with the same lifetime; and the step-up token named, if any, is spent.
   */
  lemma SigningDoes(env: Env, s: State, appId: Id, kid: string, claims: DA.ClaimSet, now: Time) returns (t: Token)
    requires InternalSign(env, s, appId, kid, claims, now).reply == Ok(200)
    ensures DA.RepeatsRequest(env.daKeys, kid, claims, t)
    ensures forall scope :: scope in claims.scopes ==> DA.Permits(scope, t.claims.exp - t.claims.iat)
    ensures var s' := InternalSign(env, s, appId, kid, claims, now).state;
      && s'.issued == s.issued + {t}
      && claims.jti !in s.signings && claims.jti in s'.signings
      && s'.signings == s.signings[claims.jti := s'.signings[claims.jti]]
      && RecordsSigning(s'.signings[claims.jti], claims)
      && s' == s.(signings := s'.signings, issued := s'.issued, tokens := s'.tokens)
      && if claims.stepUpJti.None? then s'.tokens == s.tokens
         else
           claims.stepUpJti.value in s.tokens &&
           s'.tokens == s.tokens[claims.stepUpJti.value :=
             s.tokens[claims.stepUpJti.value].(consumedAt := Some(now))]
  {
    t := DA.SignedTokenRepeatsRequest(env.daKeys, env.issuer, env.tolerance, kid, claims, now);
  }

  /** Why a signing is refused; a step-up token is spent only by a request whose token was good. */
  lemma SignRefusals(env: Env, s: State, appId: Id, kid: string, claims: DA.ClaimSet, now: Time)
    ensures var r := InternalSign(env, s, appId, kid, claims, now);
      var pinned := appId == env.helpanAiAppId;
      var known := pinned && claims.sub in s.customers.accounts;
      && (!pinned ==> r == Result(s, Error(403, AuthScopeInsufficient)))
      && (pinned && !known ==> r == Result(s, Error(404, CustomerNotFound)))
      && (known && claims.stepUpJti.Some? ==>
          var j := claims.stepUpJti.value;
          && (j !in s.tokens ==> r == Result(s, Error(400, StepUpTokenUnknown)))
          && (j in s.tokens && s.tokens[j].info.accountUuid != Some(claims.sub) ==>
              r == Result(s, Error(400, StepUpTokenSubjectMismatch)))
          && (SU.Spent(s.tokens, j) && s.tokens[j].info.accountUuid == Some(claims.sub) ==>
              r == Result(s, Error(409, StepUpTokenAlreadyUsed))))
      && (r.reply.Error? ==> r.state == s.(tokens := r.state.tokens))
  {}

  // Challenges.

  /** A new pending challenge is all that is written. */
  predicate Creates(s: State, s': State, id: Id, now: Time) {
    && id !in s.challenges && id in s'.challenges
    && var c := s'.challenges[id];
    && s' == s.(challenges := s.challenges[id := c])
    && c.info.id == id && c.status == AC.Pending && c.attemptsUsed == 0 && c.consumedAt.None? && c.createdAt == now
  }

  /** The one subject of the request, an operator exactly for `operator.` kinds, with the factor of that subject. */
  predicate SubjectFits(q: Req.StepupRequest) {
    if "operator." <= q.kind then q.operatorUserId.Some? && q.accountUuid.None? && q.factor == AC.HardwareKey
    else q.accountUuid.Some? && q.operatorUserId.None? && q.factor == AC.PhoneOtp
  }

  /** Who may be challenged. */
  predicate SubjectMayStepUp(s: State, q: Req.StepupRequest, operatorRefusal: Option<Reply>) {
    SubjectFits(q) &&
    if q.operatorUserId.Some? then operatorRefusal.None?
    else q.accountUuid.value in s.customers.accounts && s.customers.accounts[q.accountUuid.value].state == Cust.Active
  }

  /**
   * A step-up challenge is created exactly for an active account or an admitted operator with the
   * right factor; it repeats the request and stays open as long as its token would live.
   */
  lemma StepupChallengeCreatedExactlyWhen(
      s: State, q: Req.StepupRequest, operatorRefusal: Option<Reply>, id: Id, appId: Id, secret: string, now: Time)
    requires operatorRefusal.Some? ==> operatorRefusal.value.Error?
    ensures var r := CreateStepupChallenge(s, q, operatorRefusal, id, appId, secret, now);
      && (r.reply.Ok? <==> SubjectMayStepUp(s, q, operatorRefusal) && id !in s.challenges)
      && (r.reply.Ok? ==>
          && r.reply == Ok(201) && Creates(s, r.state, id, now)
          && var c := r.state.challenges[id].info;
          && c.purpose == AC.StepUp && c.appId == appId && c.factor == q.factor
          && c.accountId == q.accountUuid && c.operatorUserId == q.operatorUserId
          && c.intendedOperation == Some(q.kind) && c.operationAudience == Some(q.audience)
          && c.riskTier == Some(q.riskTier) && c.actor == q.actor && c.initiatedBy == q.initiatedBy
          && (c.accountId.Some? ==> c.otpHash == Some(secret) && c.factorData.None?)
          && (c.operatorUserId.Some? ==> c.factorData == Some(secret) && c.otpHash.None?)
          && (q.riskTier == AC.Low ==> c.expiresAt == now + 600 * 1000)
          && (q.riskTier == AC.Medium ==> c.expiresAt == now + 300 * 1000)
          && (q.riskTier == AC.High ==> c.expiresAt == now + 180 * 1000)
          && (q.riskTier == AC.VeryHigh ==> c.expiresAt == now + 60 * 1000))
      && (r.reply.Error? ==> r.state == s)
  {}

  predicate OneSubject(q: Req.StepupRequest) {
    if "operator." <= q.kind then q.operatorUserId.Some? && q.accountUuid.None?
    else q.accountUuid.Some? && q.operatorUserId.None?
  }

  /** Why it is not created: the wrong subject, the wrong factor for it, or an account that is unknown or not active. */
  lemma StepupChallengeRefusals(
      s: State, q: Req.StepupRequest, operatorRefusal: Option<Reply>, id: Id, appId: Id, secret: string, now: Time)
    ensures var r := CreateStepupChallenge(s, q, operatorRefusal, id, appId, secret, now);
      && (!OneSubject(q) ==> r.reply == Error(400, ValidationRequestInvalid))
      && (OneSubject(q) && !SubjectFits(q) ==> r.reply == Error(400, AuthFactorUnsupported))
      && (SubjectFits(q) && q.accountUuid.Some? ==>
          var u := q.accountUuid.value;
          && (r.reply == Error(404, CustomerNotFound) <==> u !in s.customers.accounts)
          && (r.reply == Error(409, StateInvalidForAction) <==>
              u in s.customers.accounts && s.customers.accounts[u].state != Cust.Active))
      && (SubjectFits(q) && q.operatorUserId.Some? && operatorRefusal.Some? ==> r.reply == operatorRefusal.value)
  {}

  /**
   * A challenge of the login endpoint is created exactly when the number is well formed and bound to
   * an account; it is that account's, never bound to an operation, and open for ten minutes (five
   * for the step-up purpose).
   */
  lemma AuthChallengeCreatedExactlyWhen(
      env: Env, s: State, phone: string, factor: AC.Factor, purpose: AC.Purpose, id: Id, appId: Id, secret: string,
      now: Time)
    ensures var r := CreateAuthChallenge(env, s, phone, factor, purpose, id, appId, secret, now);
      var n := PhoneNormalise.Normalise(phone);
      var asked := purpose != AC.OperatorWebauthnRegister && factor == AC.PhoneOtp;
      && (r.reply.Ok? <==>
          asked && n.Some? && env.crypto.hash(n.value) in s.customers.phoneHashes && id !in s.challenges)
      && (r.reply.Ok? ==>
          && r.reply == Ok(201) && Creates(s, r.state, id, now)
          && var c := r.state.challenges[id].info;
          && c.accountId == Some(s.customers.phoneHashes[env.crypto.hash(n.value)]) && c.operatorUserId.None?
          && c.purpose == purpose && c.factor == AC.PhoneOtp && c.otpHash == Some(secret) && c.appId == appId
          && c.intendedOperation.None? && c.operationAudience.None? && c.riskTier.None?
          && c.expiresAt == (if purpose == AC.StepUp then now + 5 * 60 * 1000 else now + 10 * 60 * 1000))
      && (r.reply.Error? ==> r.state == s)
      && (r.reply == Error(404, CustomerNotFound) <==>
          asked && n.Some? && env.crypto.hash(n.value) !in s.customers.phoneHashes)
      && (r.reply == Error(400, ValidationPhoneInvalid) <==> asked && n.None?)
      && (r.reply == Error(400, AuthFactorUnsupported) <==>
          purpose != AC.OperatorWebauthnRegister && factor != AC.PhoneOtp)
  {}
}
