/**
 * The route handlers as atomic steps over the stores they share: each handler is a
 * function from the state of the rail, the request and one reading of the clock to the
 * new state and the answer. Exceptions thrown by a store end the handler with a 500 and
 * leave what was written before in place.
 */
module Rail {
  import opened Domain
  import opened Jwt
  import AC = AuthChallenges
  import SU = StepUpTokens
  import PC = PhoneChanges
  import Cust = Customers
  import DA = DelegatedAuthority
  import SV = StepupVerifier
  import Req = StepupRequests
  import Crypto = PhoneCrypto
  import PhoneNormalise
  import PhoneCooldown

  const AWAITING_CONFIRMATION_TTL_SECONDS: int := 600
  const LOGIN_OTP_TTL_SECONDS: int := 600
  const STEPUP_OTP_TTL_SECONDS: int := 300
  const PRIMARY_TOKEN_TTL_SECONDS: int := 1800
  const AUDIENCE_TOKEN_TTL_DEFAULT_SECONDS: int := 900
  const AUDIENCE_TOKEN_TTL_MIN_SECONDS: int := 60
  const AUDIENCE_TOKEN_TTL_MAX_SECONDS: int := 3600
  const CROSS_RAIL_AUDIENCE_WHITELIST := ["https://hakken.co.ke", "https://api.helpan.co.ke"]

  const IPRS_VERIFIED := "iprs_verified"
  const TIER_1_KYC_COMPLETE := "rule_based_tier_1_kyc_complete"

  const INTERNAL := Error(500, InternalUnspecified)
  const UNKNOWN_CUSTOMER := Error(404, CustomerNotFound)
  const WRONG_STATE := Error(409, StateInvalidForAction)

  /** What the process is started with. */
  datatype Env = Env(
    crypto: Crypto.Crypto, issuer: string, signingKey: Id, verifierKeys: seq<KeyPair>,
    daKeys: seq<KeyPair>, tolerance: int, helpanAiAppId: Id)

  datatype TransitionKind = Activate | Suspend | Reactivate

  /** Events of identiti.account.events. */
  datatype AccountEvent =
    | AccountCreated(account: Id, state: Cust.AccountState, tier: Cust.Tier)
    | StateChanged(account: Id, kind: TransitionKind, fromState: Cust.AccountState, toState: Cust.AccountState)
    | TierChanged(account: Id, fromTier: Cust.Tier, toTier: Cust.Tier, reason: string)

  /** PHONE_CHANGED of identiti.phone.events. */
  datatype PhoneChanged = PhoneChanged(
    account: Id, oldHash: string, newHash: string, changedAt: Time, verificationMethod: PC.Method, stepupJti: Id)

  /**
   * The stores, the two topics, and two histories: the signed tokens handed out so far
   * and the challenges that a correct answer has consumed.
   */
  datatype State = State(
    customers: Cust.Store, challenges: AC.Challenges, tokens: SU.Tokens, changes: PC.Table, signings: SU.Signings,
    accountEvents: seq<AccountEvent>, phoneEvents: seq<PhoneChanged>,
    issued: set<Token>, answered: set<Id>)

  const INIT := State(Cust.EMPTY, map[], map[], PC.Table([], map[]), map[], [], [], {}, {})

  datatype Result = Result(state: State, reply: Reply)

  // Challenges and tokens.

  /**
   * The checks before the insert. `operatorRefusal`: the answer of the operator-user lookups, when
   * they do not pass.
   */
  function StepupRefusal(s: State, q: Req.StepupRequest, operatorRefusal: Option<Reply>): Option<Reply> {
    var refusal := Req.RequestError(q);
    if refusal.Some? then refusal
    else if SU.IsOperatorKind(q.kind) then operatorRefusal
    else if q.accountUuid.value !in s.customers.accounts then Some(UNKNOWN_CUSTOMER)
    else if s.customers.accounts[q.accountUuid.value].state != Cust.Active then Some(WRONG_STATE)
    else None
  }

  /** POST /v1/stepup/challenges. */
  function CreateStepupChallenge(
      s: State, q: Req.StepupRequest, operatorRefusal: Option<Reply>, id: Id, appId: Id,
      secret: string, now: Time): Result
  {
    var refusal := StepupRefusal(s, q, operatorRefusal);
    if refusal.Some? then Result(s, refusal.value)
    else
      Result(s.(challenges := AC.WithChallenge(s.challenges, Req.StepupInfo(q, id, appId, secret, now), now)),
             if id in s.challenges then INTERNAL else Ok(201))
  }

  function LoginInfo(accountId: Id, purpose: AC.Purpose, id: Id, appId: Id, secret: string,
      now: Time): AC.ChallengeInfo {
    var ttl := if purpose == AC.StepUp then STEPUP_OTP_TTL_SECONDS else LOGIN_OTP_TTL_SECONDS;
    AC.ChallengeInfo(id, Some(accountId), None, appId, AC.PhoneOtp, purpose, Some(secret), None,
                     now + ttl * SECOND_MS, None, None, None, None, None)
  }

  /** The four purposes the request schema admits. */
  predicate RequestablePurpose(p: AC.Purpose) {
    p != AC.OperatorWebauthnRegister
  }

  function CreateAuthChallenge(
      env: Env, s: State, phone: string, factor: AC.Factor, purpose: AC.Purpose, id: Id, appId: Id,
      secret: string, now: Time): Result
  {
    if !RequestablePurpose(purpose) then Result(s, Error(400, ValidationRequestInvalid))
    else if factor != AC.PhoneOtp then Result(s, Error(400, AuthFactorUnsupported))
    else
      var normalised := PhoneNormalise.Normalise(phone);
      if normalised.None? then Result(s, Error(400, ValidationPhoneInvalid))
      else
        var hash := env.crypto.hash(normalised.value);
        if hash !in s.customers.phoneHashes then Result(s, UNKNOWN_CUSTOMER)
        else
          var info := LoginInfo(s.customers.phoneHashes[hash], purpose, id, appId, secret, now);
          Result(s.(challenges := AC.WithChallenge(s.challenges, info, now)),
                 if id in s.challenges then INTERNAL else Ok(201))
  }

  function Lookup(m: AC.Challenges, id: Id): Option<AC.Challenge> {
    if id in m then Some(m[id]) else None
  }

  predicate Accepted(r: AC.FactorResponse) {
    if r.Assertion? then r.accepted else r.matches
  }

  /** A success is recorded; that the answer was correct is what the history remembers of it. */
  function Consuming(s: State, id: Id, next: AC.AttemptUpdate, correct: bool): State {
    s.(challenges := AC.WithAttempt(s.challenges, id, next), answered := if correct then s.answered + {id}
        else s.answered)
  }

  /** The claims of a step-up token, from the row stored for it. */
  function StepupClaims(issuer: string, i: SU.TokenInfo): Claims {
    Claims(issuer, [i.audience], if i.accountUuid.Some? then i.accountUuid else i.operatorUserId,
           Seconds(i.iat), Seconds(i.exp), Some(Seconds(i.iat)), Some(i.jti), Some(i.operationKind))
  }

  /** POST /v1/stepup/verify. */
  function AnswerStepup(env: Env, s: State, id: Id, response: AC.FactorResponse, now: Time): Result {
    match AC.StepupDecision(Lookup(s.challenges, id), response, now)
    case Refuse(reply) => Result(s, reply)
    case RecordAndRefuse(next, reply) => Result(s.(challenges := AC.WithAttempt(s.challenges, id, next)), reply)
    case RecordAndProceed(next) =>
      var token := SU.Minted(s.challenges[id].info, now);
      var recorded := Consuming(s, id, next, Accepted(response));
      if token.jti in s.tokens then Result(recorded, INTERNAL)
      else
        Result(recorded.(tokens := SU.WithToken(s.tokens, token),
                         issued := s.issued + {Token(Some(env.signingKey), StepupClaims(env.issuer, token))}),
               Ok(200))
  }

  /** A bearer token of the signer that carries no operation. */
  function BearerToken(env: Env, accountId: Id, jti: Id, audience: seq<string>, ttlSeconds: int, now: Time): Token {
    Token(Some(env.signingKey),
          Claims(env.issuer, audience, Some(accountId), Seconds(now), Seconds(now + ttlSeconds * SECOND_MS),
              None, Some(jti), None))
  }

  /** POST /v1/auth/customer-token. */
  function CustomerToken(env: Env, s: State, id: Id, response: AC.FactorResponse, jti: Id,
      audience: string, now: Time): Result {
    match AC.LoginDecision(Lookup(s.challenges, id), response, now)
    case Refuse(reply) => Result(s, reply)
    case RecordAndRefuse(next, reply) => Result(s.(challenges := AC.WithAttempt(s.challenges, id, next)), reply)
    case RecordAndProceed(next) =>
      var recorded := Consuming(s, id, next, Accepted(response));
      var accountId := s.challenges[id].info.accountId.value;
      if accountId !in s.customers.accounts then Result(recorded, UNKNOWN_CUSTOMER)
      else
        var token := BearerToken(env, accountId, jti, [IDENTITI_AUDIENCE, audience], PRIMARY_TOKEN_TTL_SECONDS, now);
        Result(recorded.(issued := s.issued + {token}), Ok(200))
  }

  /** POST /v1/customers/:uuid/tokens. */
  function AudienceToken(env: Env, s: State, uuid: Id, audience: string, ttlSeconds: Option<int>,
      jti: Id, now: Time): Result {
    if audience == "" then Result(s, Error(400, ValidationRequestInvalid))
    else if audience !in CROSS_RAIL_AUDIENCE_WHITELIST then Result(s, Error(403, TokenAudienceNotPermitted))
    else if ttlSeconds.Some? &&
        !(AUDIENCE_TOKEN_TTL_MIN_SECONDS <= ttlSeconds.value <= AUDIENCE_TOKEN_TTL_MAX_SECONDS) then
      Result(s, Error(400, ValidationRequestInvalid))
    else if uuid !in s.customers.accounts then Result(s, UNKNOWN_CUSTOMER)
    else if s.customers.accounts[uuid].state != Cust.Active then Result(s, WRONG_STATE)
    else
      var ttl := if ttlSeconds.Some? then ttlSeconds.value else AUDIENCE_TOKEN_TTL_DEFAULT_SECONDS;
      Result(s.(issued := s.issued + {BearerToken(env, uuid, jti, [audience], ttl, now)}), Ok(200))
  }

  /** The part of POST /v1/internal/sign after the step-up token, if any, has been spent. */
  function SignAndRecord(env: Env, s: State, kid: string, claims: DA.ClaimSet, now: Time): Result {
    match DA.SignResult(env.daKeys, env.issuer, env.tolerance, kid, claims, now)
    case Refused(e) => Result(s, Error(400, e))
    case Signed(token, signedAt, expiresAt) =>
      var row := SU.Signing(claims.jti, claims.sub, claims.agentId, claims.stepUpJti, claims.scopes,
          signedAt, expiresAt);
      if row.jti in s.signings then Result(s, INTERNAL)
      else Result(s.(signings := SU.WithSigning(s.signings, row), issued := s.issued + {token}), Ok(200))
  }

  /** POST /v1/internal/sign. */
  function InternalSign(env: Env, s: State, appId: Id, kid: string, claims: DA.ClaimSet, now: Time): Result {
    if appId != env.helpanAiAppId then Result(s, Error(403, AuthScopeInsufficient))
    else if claims.sub !in s.customers.accounts then Result(s, UNKNOWN_CUSTOMER)
    else if claims.stepUpJti.None? then SignAndRecord(env, s, kid, claims, now)
    else
      var jti := claims.stepUpJti.value;
      if jti !in s.tokens then Result(s, Error(400, StepUpTokenUnknown))
      else if s.tokens[jti].info.accountUuid != Some(claims.sub) then Result(s, Error(400, StepUpTokenSubjectMismatch))
      else if !SU.Unspent(s.tokens, jti) then Result(s, Error(409, StepUpTokenAlreadyUsed))
      else SignAndRecord(env, s.(tokens := SU.WithConsumed(s.tokens, jti, now)), kid, claims, now)
  }

  // Phone changes.

  /** What an initiate asks for, and the values drawn while it is served. */
  datatype Initiation = Initiation(
    uuid: Id, newPhone: string, verificationMethod: PC.Method, token: Option<Token>,
    changeId: Id, challengeId: Id, secret: string, iv: Crypto.Bytes, appId: Id)

  function WithStepupSpent(env: Env, s: State, q: Initiation, now: Time): (State, SV.Verification)
    requires q.token.Some?
  {
    var seen := SV.Inspected(env.verifierKeys, env.issuer, q.token.value,
                             SV.Expectation(IDENTITI_AUDIENCE, q.uuid, PHONE_CHANGE_OPERATION_KIND), now);
    if !seen.Valid? then (s, seen)
    else if !SU.Unspent(s.tokens, seen.jti) then (s, SV.Invalid(SV.ReplayDetected))
    else (s.(tokens := SU.WithConsumed(s.tokens, seen.jti, now)), seen)
  }

  /** POST /v1/customers/:uuid/profile/phone-change. */
  function Initiate(env: Env, s: State, q: Initiation, now: Time): Result {
    if q.token.None? then Result(s, Error(401, AuthFactorRequired))
    else
      var (spent, verification) := WithStepupSpent(env, s, q, now);
      match verification
      case TokenHasExpired => Result(spent, Error(401, StepupTokenExpired))
      case Invalid(_) => Result(spent, Error(401, StepupTokenInvalid))
      case Valid(jti, _) => Authorised(env, spent, q, jti, now)
  }

  /** The gates after the token has been spent. */
  function Authorised(env: Env, s: State, q: Initiation, jti: Id, now: Time): Result {
    if q.uuid !in s.customers.accounts then Result(s, UNKNOWN_CUSTOMER)
    else if PhoneCooldown.IsInCooldown(s.customers.accounts[q.uuid].cooldownUntil, now) then
      Result(s, Error(422, PhoneChangeCooldownActive))
    else
      var normalised := PhoneNormalise.Normalise(q.newPhone);
      if normalised.None? then Result(s, Error(400, ValidationPhoneInvalid))
      else
        var newHash := env.crypto.hash(normalised.value);
        if newHash == s.customers.accounts[q.uuid].phoneHash then Result(s, Error(400, ValidationRequestInvalid))
        else if newHash in s.customers.phoneHashes && s.customers.phoneHashes[newHash] != q.uuid then
          Result(s, Error(400, ValidationPhoneAlreadyRegistered))
        else
          var superseded := s.(changes := PC.WithExistingCancelled(s.changes, q.uuid, now));
          var sealed := env.crypto.seal(q.iv, normalised.value);
          match q.verificationMethod
          case OtpToOldPhone => ChangeAtOnce(superseded, q, jti, newHash, sealed, now)
          case OtpToNewPhoneWithStepUpToOld => AwaitConfirmation(superseded, q, jti, newHash, sealed, now)
  }

  function AtOnceInfo(q: Initiation, jti: Id, newHash: string, sealed: Crypto.Bytes, now: Time): PC.ChangeInfo {
    PC.ChangeInfo(q.changeId, q.uuid, PC.OtpToOldPhone, newHash, sealed, None, jti,
        PhoneCooldown.ComputeCooldownUntil(now, false))
  }

  /** One phone: the row is written as `completed`, so the `complete` that follows changes nothing. */
  function ChangeAtOnce(s: State, q: Initiation, jti: Id, newHash: string, sealed: Crypto.Bytes, now: Time): Result {
    if q.changeId in s.changes.rows then Result(s, INTERNAL)
    else
      var written := PC.WithChange(s.changes, AtOnceInfo(q, jti, newHash, sealed, now), PC.Completed, now);
      var r := s.(changes := PC.WithCompleted(written, q.changeId, now));
      Swapped(r, q.uuid, q.changeId, newHash, sealed, PC.OtpToOldPhone, jti, 201, now)
  }

  /** `swapPhone`, and what follows it in both handlers apart from completing the change. */
  function Swapped(s: State, uuid: Id, changeId: Id, newHash: string, sealed: Crypto.Bytes,
      verificationMethod: PC.Method, jti: Id, status: nat, now: Time): Result {
    match Cust.SwapOutcome(s.customers, uuid, newHash)
    case NotFound => Result(s.(changes := PC.WithCancelled(s.changes, changeId, PC.PhoneRecordVanished, now)), INTERNAL)
    case Done =>
      var cooldownUntil := PhoneCooldown.ComputeCooldownUntil(now, false);
      Result(s.(customers := Cust.WithPhone(s.customers, uuid, newHash, sealed, cooldownUntil, now),
                phoneEvents := s.phoneEvents + [PhoneChanged(uuid, s.customers.accounts[uuid].phoneHash, newHash, now,
                    verificationMethod, jti)]),
             Ok(status))
    case _ => Result(s, INTERNAL)
  }

  function NewPhoneChallenge(q: Initiation, now: Time): AC.ChallengeInfo {
    AC.ChallengeInfo(
      q.challengeId, Some(q.uuid), None, q.appId, AC.PhoneOtp, AC.PhoneChangeToNew, Some(q.secret), None,
      now + AWAITING_CONFIRMATION_TTL_SECONDS * SECOND_MS,
      Some(PHONE_CHANGE_OPERATION_KIND), Some(IDENTITI_AUDIENCE), Some(AC.High), None, None)
  }

  function AwaitingInfo(q: Initiation, jti: Id, newHash: string, sealed: Crypto.Bytes, now: Time): PC.ChangeInfo {
    PC.ChangeInfo(q.changeId, q.uuid, PC.OtpToNewPhoneWithStepUpToOld, newHash, sealed, Some(q.challengeId), jti,
                  now + AWAITING_CONFIRMATION_TTL_SECONDS * SECOND_MS)
  }

  /** Two phones: a challenge for the new one, then a change that waits for its answer. */
  function AwaitConfirmation(s: State, q: Initiation, jti: Id, newHash: string,
      sealed: Crypto.Bytes, now: Time): Result {
    if q.challengeId in s.challenges then Result(s, INTERNAL)
    else
      var r := s.(challenges := AC.WithChallenge(s.challenges, NewPhoneChallenge(q, now), now));
      if q.changeId in s.changes.rows then Result(r, INTERNAL)
      else
        Result(r.(changes := PC.WithChange(s.changes, AwaitingInfo(q, jti, newHash, sealed, now),
            PC.CooldownActive, now)), Ok(201))
  }

  /** POST /v1/customers/:uuid/profile/phone-change/confirm. */
  function Confirm(s: State, uuid: Id, changeId: Id, matches: bool, now: Time): Result {
    if changeId !in s.changes.rows || s.changes.rows[changeId].info.accountId != uuid then
      Result(s, Error(404, PhoneChangeNotFound))
    else
      var change := s.changes.rows[changeId];
      if change.state != PC.CooldownActive then Result(s, WRONG_STATE)
      else if change.info.expiresAt <= now then
        Result(s.(changes := PC.WithCancelled(s.changes, changeId, PC.AwaitingConfirmationExpired, now)),
            Error(410, AuthChallengeExpired))
      else if change.info.challengeNewId.None? then Result(s, INTERNAL)
      else if change.info.challengeNewId.value !in s.challenges then
        Result(s.(changes := PC.WithCancelled(s.changes, changeId, PC.ChallengeMissing, now)), INTERNAL)
      else
        Answered(s, change, change.info.challengeNewId.value, matches, now)
  }

  /** The part of confirm that looks at the challenge. */
  function Answered(s: State, change: PC.Change, cid: Id, matches: bool, now: Time): Result
    requires cid in s.challenges
  {
    var c := s.challenges[cid];
    var id := change.info.id;
    match AC.ConfirmDecision(c, matches, now)
    case Refuse(reply) =>
      var reason := if c.info.otpHash.None? then PC.ChallengeMissing else PC.ChallengeNotPending(c.status);
      Result(s.(changes := PC.WithCancelled(s.changes, id, reason, now)), reply)
    case RecordAndRefuse(next, reply) =>
      var recorded := s.(challenges := AC.WithAttempt(s.challenges, cid, next));
      if next.status == AC.Failed then
        Result(recorded.(changes := PC.WithCancelled(s.changes, id, PC.MaxOtpAttempts, now)), reply)
      else Result(recorded, reply)
    case RecordAndProceed(next) =>
      var recorded := Consuming(s, cid, next, matches);
      var i := change.info;
      var r := Swapped(recorded, i.accountId, id, i.newPhoneHash, i.newPhoneEncrypted, PC.OtpToNewPhoneWithStepUpToOld,
                       i.authorisingStepupJti, 200, now);
      if r.reply.Ok? then Result(r.state.(changes := PC.WithCompleted(r.state.changes, id, now)), r.reply) else r
  }

  // Customers.

  /** POST /v1/customers, with the re-link of a number the same app registered before. */
  function CreateCustomer(
      env: Env, s: State, phone: string, consented: bool, uuid: Id, appId: Id, assignmentId: Id,
      iv: Crypto.Bytes, now: Time): Result
  {
    if !consented then Result(s, Error(400, ValidationConsentMissing))
    else
      var normalised := PhoneNormalise.Normalise(phone);
      if normalised.None? then Result(s, Error(400, ValidationPhoneInvalid))
      else
        var hash := env.crypto.hash(normalised.value);
        match Cust.CreateOutcome(s.customers, uuid, hash, assignmentId)
        case PhoneTaken =>
          var holder := s.customers.phoneHashes[hash];
          if holder in s.customers.accounts && s.customers.accounts[holder].originAppId == appId then Result(s, Ok(200))
          else Result(s, Error(400, ValidationPhoneAlreadyRegistered))
        case Done =>
          Result(s.(customers := Cust.WithCustomer(s.customers, uuid, hash, env.crypto.seal(iv, normalised.value),
              appId, assignmentId, now),
                    accountEvents := s.accountEvents + [AccountCreated(uuid, Cust.PendingOnboarding, Cust.Tier0)]),
                 Ok(201))
        case _ => Result(s, INTERNAL)
  }

  function FromStates(k: TransitionKind): set<Cust.AccountState> {
    match k
    case Activate => {Cust.PendingOnboarding}
    case Suspend => {Cust.Active}
    case Reactivate => {Cust.FrozenAml, Cust.PendingOnboarding}
  }

  function ToState(k: TransitionKind): Cust.AccountState {
    if k == Suspend then Cust.FrozenAml else Cust.Active
  }

  /** Activate (customer app), suspend and reactivate (operator). */
  function ChangeState(s: State, k: TransitionKind, uuid: Id): Result {
    match Cust.ChangeStateOutcome(s.customers, uuid, FromStates(k))
    case NotFound => Result(s, UNKNOWN_CUSTOMER)
    case NotAllowed =>
      Result(s, if k == Activate && s.customers.accounts[uuid].state == Cust.Active then Ok(200) else WRONG_STATE)
    case _ =>
      Result(s.(customers := Cust.WithState(s.customers, uuid, FromStates(k), ToState(k)),
                accountEvents := s.accountEvents + [StateChanged(uuid, k,
                    s.customers.accounts[uuid].state, ToState(k))]),
             Ok(200))
  }

  /** `setTier` and the TIER_CHANGED that follows it. */
  function AssignTier(s: State, uuid: Id, tier: Cust.Tier, reason: string, assignmentId: Id,
      status: nat, now: Time): Result {
    match Cust.SetTierOutcome(s.customers, uuid, assignmentId)
    case NotFound => Result(s, UNKNOWN_CUSTOMER)
    case Done =>
      Result(s.(customers := Cust.WithTier(s.customers, uuid, tier, reason, assignmentId, now),
                accountEvents := s.accountEvents + [TierChanged(uuid, s.customers.accounts[uuid].tier, tier, reason)]),
             Ok(status))
    case _ => Result(s, INTERNAL)
  }

  /**
   * The tier part of POST /v1/customers/:uuid/kyc/iprs; `refusal` is the outcome of the KYC checks
   * when they do not pass.
   */
  function IprsLookup(s: State, uuid: Id, refusal: Option<Reply>, assignmentId: Id, now: Time): Result {
    if uuid !in s.customers.accounts then Result(s, UNKNOWN_CUSTOMER)
    else if refusal.Some? then Result(s, refusal.value)
    else if s.customers.accounts[uuid].tier == Cust.Tier0 then
      AssignTier(s, uuid, Cust.Tier1, IPRS_VERIFIED, assignmentId, 201, now)
    else Result(s, Ok(201))
  }

  /** The tier part of POST /v1/operator/kyc/:id/approve, for a record of account `uuid` and tier `recordTier`. */
  function ApproveKyc(s: State, uuid: Id, recordTier: Cust.Tier, refusal: Option<Reply>,
      assignmentId: Id, now: Time): Result {
    if refusal.Some? then Result(s, refusal.value)
    else if uuid in s.customers.accounts && s.customers.accounts[uuid].tier == Cust.Tier0 &&
        recordTier == Cust.Tier1 then
      AssignTier(s, uuid, Cust.Tier1, TIER_1_KYC_COMPLETE, assignmentId, 200, now)
    else Result(s, Ok(200))
  }

  // Runs.

  datatype Request =
    | ReqStepupChallenge(q: Req.StepupRequest, operatorRefusal: Option<Reply>, id: Id, appId: Id, secret: string)
    | ReqAuthChallenge(phone: string, factor: AC.Factor, purpose: AC.Purpose, id: Id, appId: Id, secret: string)
    | ReqStepupVerify(id: Id, response: AC.FactorResponse)
    | ReqValidate(token: Token, want: SV.Expectation)
    | ReqCustomerToken(id: Id, response: AC.FactorResponse, jti: Id, audience: string)
    | ReqAudienceToken(uuid: Id, audience: string, ttlSeconds: Option<int>, jti: Id)
    | ReqSign(appId: Id, kid: string, claims: DA.ClaimSet)
    | ReqInitiate(initiation: Initiation)
    | ReqConfirm(uuid: Id, changeId: Id, matches: bool)
    | ReqCreate(phone: string, consented: bool, uuid: Id, appId: Id, assignmentId: Id, iv: Crypto.Bytes)
    | ReqChangeState(kind: TransitionKind, uuid: Id)
    | ReqIprs(uuid: Id, refusal: Option<Reply>, assignmentId: Id)
    | ReqApprove(uuid: Id, recordTier: Cust.Tier, refusal: Option<Reply>, assignmentId: Id)
    | ReqTierOverride(uuid: Id, tier: Cust.Tier, reason: string, assignmentId: Id)

  function Serve(env: Env, s: State, r: Request, now: Time): Result {
    match r
    case ReqStepupChallenge(q, operatorRefusal, id, appId, secret) =>
      CreateStepupChallenge(s, q, operatorRefusal, id, appId, secret, now)
    case ReqAuthChallenge(phone, factor, purpose, id, appId, secret) =>
      CreateAuthChallenge(env, s, phone, factor, purpose, id, appId, secret, now)
    case ReqStepupVerify(id, response) => AnswerStepup(env, s, id, response, now)
    case ReqValidate(_, _) => Result(s, Ok(200))
    case ReqCustomerToken(id, response, jti, audience) => CustomerToken(env, s, id, response, jti, audience, now)
    case ReqAudienceToken(uuid, audience, ttlSeconds, jti) =>
      AudienceToken(env, s, uuid, audience, ttlSeconds, jti, now)
    case ReqSign(appId, kid, claims) => InternalSign(env, s, appId, kid, claims, now)
    case ReqInitiate(q) => Initiate(env, s, q, now)
    case ReqConfirm(uuid, changeId, matches) => Confirm(s, uuid, changeId, matches, now)
    case ReqCreate(phone, consented, uuid, appId, assignmentId, iv) =>
      CreateCustomer(env, s, phone, consented, uuid, appId, assignmentId, iv, now)
    case ReqChangeState(kind, uuid) => ChangeState(s, kind, uuid)
    case ReqIprs(uuid, refusal, assignmentId) => IprsLookup(s, uuid, refusal, assignmentId, now)
    case ReqApprove(uuid, recordTier, refusal, assignmentId) =>
      ApproveKyc(s, uuid, recordTier, refusal, assignmentId, now)
    case ReqTierOverride(uuid, tier, reason, assignmentId) => AssignTier(s, uuid, tier, reason, assignmentId, 200, now)
  }

  /** A token that verifies under one of the verifier's keys was handed out by the service. */
  predicate Presentable(env: Env, s: State, t: Token) {
    SV.SignedByOneOf(env.verifierKeys, t) ==> t in s.issued
  }

  predicate Admissible(env: Env, s: State, r: Request) {
    match r
    case ReqInitiate(q) => |q.iv| == Crypto.IV_LEN && (q.token.Some? ==> Presentable(env, s, q.token.value))
    case ReqCreate(_, _, _, _, _, iv) => |iv| == Crypto.IV_LEN
    case _ => true
  }

  datatype Tick = Tick(request: Request, now: Time)

  function After(env: Env, ticks: seq<Tick>): State {
    if ticks == [] then INIT
    else
      var t := ticks[|ticks| - 1];
      Serve(env, After(env, ticks[..|ticks| - 1]), t.request, t.now).state
  }

  /** Clock readings do not decrease, and every request is admissible when it is served. */
  ghost predicate IsRun(env: Env, ticks: seq<Tick>) {
    ticks != [] ==>
      var n := |ticks| - 1;
      && IsRun(env, ticks[..n])
      && (n > 0 ==> ticks[n - 1].now <= ticks[n].now)
      && Admissible(env, After(env, ticks[..n]), ticks[n].request)
  }
}
