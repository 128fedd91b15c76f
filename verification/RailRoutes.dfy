/**
 * The route handlers as they are written: methods that read and update the repositories
 * one call after the other. Each is proved to do exactly what its atomic step says.
 */
module RailRoutes {
  import opened Domain
  import opened Rail
  import AC = AuthChallenges
  import SU = StepUpTokens
  import PC = PhoneChanges
  import Cust = Customers
  import DA = DelegatedAuthority
  import SV = StepupVerifier
  import Req = StepupRequests
  import Crypto = PhoneCrypto
  import PhoneNormalise
  import PhoneCooldown
  import Jwt

  /** The in-memory event producer, one list per topic. */
  class EventProducer {
    var accountEvents: seq<AccountEvent>
    var phoneEvents: seq<PhoneChanged>

    constructor ()
      ensures accountEvents == [] && phoneEvents == []
    {
      accountEvents, phoneEvents := [], [];
    }

    method PublishAccountEvent(e: AccountEvent)
      modifies this`accountEvents
      ensures accountEvents == old(accountEvents) + [e]
    {
      accountEvents := accountEvents + [e];
    }

    method PublishPhoneChanged(e: PhoneChanged)
      modifies this`phoneEvents
      ensures phoneEvents == old(phoneEvents) + [e]
    {
      phoneEvents := phoneEvents + [e];
    }
  }

  /** What the application wires together, and the two histories the specification speaks about. */
  class Deps {
    const env: Env
    const customersRepo: Cust.CustomersRepo
    const challengesRepo: AC.AuthChallengesRepo
    const stepUpTokensRepo: SU.StepUpTokensRepo
    const phoneChangesRepo: PC.PhoneChangesRepo
    const signingsRepo: SU.DelegatedAuthoritySigningsRepo
    const eventProducer: EventProducer
    const stepupVerifier: SV.StepupVerifier
    const delegatedAuthoritySigner: DA.DelegatedAuthoritySigner
    ghost var issued: set<Jwt.Token>
    ghost var answered: set<Id>

    constructor (env: Env)
      ensures this.env == env && Wired() && State() == INIT && fresh(Repr())
    {
      this.env := env;
      var tokens := new SU.StepUpTokensRepo();
      stepUpTokensRepo := tokens;
      customersRepo := new Cust.CustomersRepo();
      challengesRepo := new AC.AuthChallengesRepo();
      phoneChangesRepo := new PC.PhoneChangesRepo();
      signingsRepo := new SU.DelegatedAuthoritySigningsRepo();
      eventProducer := new EventProducer();
      stepupVerifier := new SV.StepupVerifier(env.verifierKeys, env.issuer, tokens);
      delegatedAuthoritySigner := new DA.DelegatedAuthoritySigner(env.daKeys, env.issuer, env.tolerance);
      issued, answered := {}, {};
    }

    ghost predicate Wired() {
      && stepupVerifier.jwtKeys == env.verifierKeys && stepupVerifier.issuer == env.issuer
      && stepupVerifier.stepUpTokensRepo == stepUpTokensRepo
      && delegatedAuthoritySigner.daKeys == env.daKeys && delegatedAuthoritySigner.expectedIssuer == env.issuer
      && delegatedAuthoritySigner.tolerance == env.tolerance
    }

    ghost function Repr(): set<object> {
      {this, customersRepo, challengesRepo, stepUpTokensRepo, phoneChangesRepo, signingsRepo, eventProducer}
    }

    ghost function State(): State
      reads Repr()
    {
      Rail.State.State(
        customersRepo.Contents(), challengesRepo.data, stepUpTokensRepo.data, phoneChangesRepo.table, signingsRepo.data,
        eventProducer.accountEvents, eventProducer.phoneEvents, issued, answered)
    }

    /** Challenge `id` has been consumed, by a correct answer or not. */
    ghost method NoteAnswer(id: Id, correct: bool)
      modifies this`answered
      ensures answered == old(answered) + if correct then {id} else {}
    {
      answered := answered + if correct then {id} else {};
    }
  }

  class StepupRoutes {
    const deps: Deps

    constructor (deps: Deps)
      ensures this.deps == deps
    {
      this.deps := deps;
    }

    method CreateChallenge(q: Req.StepupRequest, operatorRefusal: Option<Reply>, id: Id, appId: Id,
        secret: string, now: Time)
      returns (reply: Reply)
      requires deps.Wired()
      modifies deps.Repr()
      ensures Result(deps.State(), reply) == CreateStepupChallenge(old(deps.State()), q, operatorRefusal,
          id, appId, secret, now)
    {
      var refusal := Req.RequestError(q);
      if refusal.Some? { return refusal.value; }
      if SU.IsOperatorKind(q.kind) {
        if operatorRefusal.Some? { return operatorRefusal.value; }
      } else {
        var account := deps.customersRepo.FindById(q.accountUuid.value);
        if account.None? { return UNKNOWN_CUSTOMER; }
        if account.value.state != Cust.Active { return WRONG_STATE; }
      }
      var created := deps.challengesRepo.Create(Req.StepupInfo(q, id, appId, secret, now), now);
      return if created then Ok(201) else INTERNAL;
    }

    method Verify(id: Id, response: AC.FactorResponse, now: Time) returns (reply: Reply)
      requires deps.Wired()
      modifies deps.Repr()
      ensures Result(deps.State(), reply) == AnswerStepup(deps.env, old(deps.State()), id, response, now)
    {
      var challenge := deps.challengesRepo.FindById(id);
      match AC.StepupDecision(challenge, response, now) {
        case Refuse(r) => return r;
        case RecordAndRefuse(next, r) =>
          var _ := deps.challengesRepo.RecordAttempt(id, next);
          return r;
        case RecordAndProceed(next) =>
          var _ := deps.challengesRepo.RecordAttempt(id, next);
          deps.NoteAnswer(id, Accepted(response));
          var row := SU.Minted(challenge.value.info, now);
          var token := Jwt.Token(Some(deps.env.signingKey), StepupClaims(deps.env.issuer, row));
          var created := deps.stepUpTokensRepo.Create(row);
          if !created { return INTERNAL; }
          deps.issued := deps.issued + {token};
          return Ok(200);
      }
    }

    /** Validation reports what `inspect` finds and writes nothing. */
    method Validate(token: Jwt.Token, want: SV.Expectation, now: Time) returns (reply: Reply, found: SV.Verification)
      requires deps.Wired()
      ensures Result(deps.State(), reply) == Serve(deps.env, deps.State(), ReqValidate(token, want), now)
      ensures found == SV.Inspected(deps.env.verifierKeys, deps.env.issuer, token, want, now)
    {
      found := deps.stepupVerifier.Inspect(token, want, now);
      return Ok(200), found;
    }
  }

  class AuthRoutes {
    const deps: Deps

    constructor (deps: Deps)
      ensures this.deps == deps
    {
      this.deps := deps;
    }

    method CreateChallenge(phone: string, factor: AC.Factor, purpose: AC.Purpose, id: Id, appId: Id,
        secret: string, now: Time)
      returns (reply: Reply)
      requires deps.Wired()
      modifies deps.Repr()
      ensures Result(deps.State(), reply) == CreateAuthChallenge(deps.env, old(deps.State()), phone, factor, purpose,
          id, appId, secret, now)
    {
      if !RequestablePurpose(purpose) { return Error(400, ValidationRequestInvalid); }
      if factor != AC.PhoneOtp { return Error(400, AuthFactorUnsupported); }
      var normalised := PhoneNormalise.Normalise(phone);
      if normalised.None? { return Error(400, ValidationPhoneInvalid); }
      var account := deps.customersRepo.FindByPhoneHash(deps.env.crypto.hash(normalised.value));
      if account.None? { return UNKNOWN_CUSTOMER; }
      var created := deps.challengesRepo.Create(LoginInfo(account.value, purpose, id, appId, secret, now), now);
      return if created then Ok(201) else INTERNAL;
    }

    method IssueCustomerToken(id: Id, response: AC.FactorResponse, jti: Id, audience: string, now: Time)
        returns (reply: Reply)
      requires deps.Wired()
      modifies deps.Repr()
      ensures Result(deps.State(), reply) == CustomerToken(deps.env, old(deps.State()), id,
          response, jti, audience, now)
    {
      var challenge := deps.challengesRepo.FindById(id);
      match AC.LoginDecision(challenge, response, now) {
        case Refuse(r) => return r;
        case RecordAndRefuse(next, r) =>
          var _ := deps.challengesRepo.RecordAttempt(id, next);
          return r;
        case RecordAndProceed(next) =>
          var _ := deps.challengesRepo.RecordAttempt(id, next);
          deps.NoteAnswer(id, Accepted(response));
          var accountId := challenge.value.info.accountId.value;
          var account := deps.customersRepo.FindById(accountId);
          if account.None? { return UNKNOWN_CUSTOMER; }
          var token := BearerToken(deps.env, accountId, jti, [IDENTITI_AUDIENCE, audience],
              PRIMARY_TOKEN_TTL_SECONDS, now);
          deps.issued := deps.issued + {token};
          return Ok(200);
      }
    }
  }

  class InternalRoutes {
    const deps: Deps

    constructor (deps: Deps)
      ensures this.deps == deps
    {
      this.deps := deps;
    }

    method SignAndStore(kid: string, claims: DA.ClaimSet, now: Time) returns (reply: Reply)
      requires deps.Wired()
      modifies deps.Repr()
      ensures Result(deps.State(), reply) == SignAndRecord(deps.env, old(deps.State()), kid, claims, now)
    {
      var signed := deps.delegatedAuthoritySigner.Sign(kid, claims, now);
      match signed {
        case Refused(e) => return Error(400, e);
        case Signed(token, signedAt, expiresAt) =>
          var row := SU.Signing(claims.jti, claims.sub, claims.agentId, claims.stepUpJti, claims.scopes,
              signedAt, expiresAt);
          var created := deps.signingsRepo.Create(row);
          if !created { return INTERNAL; }
          deps.issued := deps.issued + {token};
          return Ok(200);
      }
    }

    method Sign(appId: Id, kid: string, claims: DA.ClaimSet, now: Time) returns (reply: Reply)
      requires deps.Wired()
      modifies deps.Repr()
      ensures Result(deps.State(), reply) == InternalSign(deps.env, old(deps.State()), appId, kid, claims, now)
    {
      if appId != deps.env.helpanAiAppId { return Error(403, AuthScopeInsufficient); }
      var account := deps.customersRepo.FindById(claims.sub);
      if account.None? { return UNKNOWN_CUSTOMER; }
      if claims.stepUpJti.Some? {
        var stepup := deps.stepUpTokensRepo.FindByJti(claims.stepUpJti.value);
        if stepup.None? { return Error(400, StepUpTokenUnknown); }
        if stepup.value.accountUuid != Some(claims.sub) { return Error(400, StepUpTokenSubjectMismatch); }
        var consumed := deps.stepUpTokensRepo.MarkConsumed(claims.stepUpJti.value, now);
        if !consumed { return Error(409, StepUpTokenAlreadyUsed); }
      }
      reply := SignAndStore(kid, claims, now);
    }
  }

  class PhoneChangeRoutes {
    const deps: Deps

    constructor (deps: Deps)
      ensures this.deps == deps
    {
      this.deps := deps;
    }

    method SwapAndPublish(uuid: Id, changeId: Id, oldHash: string, newHash: string, sealed: Crypto.Bytes, m: PC.Method,
        jti: Id, status: nat, now: Time)
      returns (reply: Reply)
      requires deps.Wired()
      requires uuid in deps.customersRepo.accounts ==> oldHash == deps.customersRepo.accounts[uuid].phoneHash
      modifies deps.Repr()
      ensures Result(deps.State(), reply) == Swapped(old(deps.State()), uuid, changeId, newHash,
          sealed, m, jti, status, now)
    {
      var cooldownUntil := PhoneCooldown.ComputeCooldownUntil(now, false);
      var swapped := deps.customersRepo.SwapPhone(uuid, newHash, sealed, cooldownUntil, now);
      if swapped == Cust.NotFound {
        var _ := deps.phoneChangesRepo.Cancel(changeId, PC.PhoneRecordVanished, now);
        return INTERNAL;
      }
      if swapped != Cust.Done { return INTERNAL; }
      deps.eventProducer.PublishPhoneChanged(PhoneChanged(uuid, oldHash, newHash, now, m, jti));
      return Ok(status);
    }

    method CompleteAtOnce(q: Initiation, jti: Id, oldHash: string, newHash: string, sealed: Crypto.Bytes, now: Time)
        returns (reply: Reply)
      requires deps.Wired()
      requires q.uuid in deps.customersRepo.accounts ==> oldHash == deps.customersRepo.accounts[q.uuid].phoneHash
      modifies deps.Repr()
      ensures Result(deps.State(), reply) == ChangeAtOnce(old(deps.State()), q, jti, newHash, sealed, now)
    {
      var created := deps.phoneChangesRepo.Create(AtOnceInfo(q, jti, newHash, sealed, now), PC.Completed, now);
      if !created { return INTERNAL; }
      var _ := deps.phoneChangesRepo.Complete(q.changeId, now);
      reply := SwapAndPublish(q.uuid, q.changeId, oldHash, newHash, sealed, PC.OtpToOldPhone, jti, 201, now);
    }

    method ChallengeNewPhone(q: Initiation, jti: Id, newHash: string, sealed: Crypto.Bytes, now: Time)
        returns (reply: Reply)
      requires deps.Wired()
      modifies deps.Repr()
      ensures Result(deps.State(), reply) == AwaitConfirmation(old(deps.State()), q, jti, newHash, sealed, now)
    {
      var challenged := deps.challengesRepo.Create(NewPhoneChallenge(q, now), now);
      if !challenged { return INTERNAL; }
      var created := deps.phoneChangesRepo.Create(AwaitingInfo(q, jti, newHash, sealed, now), PC.CooldownActive, now);
      return if created then Ok(201) else INTERNAL;
    }

    method Change(q: Initiation, jti: Id, now: Time) returns (reply: Reply)
      requires deps.Wired()
      modifies deps.Repr()
      ensures Result(deps.State(), reply) == Authorised(deps.env, old(deps.State()), q, jti, now)
    {
      var account := deps.customersRepo.FindById(q.uuid);
      if account.None? { return UNKNOWN_CUSTOMER; }
      if PhoneCooldown.IsInCooldown(account.value.cooldownUntil, now) { return Error(422, PhoneChangeCooldownActive); }
      var normalised := PhoneNormalise.Normalise(q.newPhone);
      if normalised.None? { return Error(400, ValidationPhoneInvalid); }
      var newHash := deps.env.crypto.hash(normalised.value);
      if newHash == account.value.phoneHash { return Error(400, ValidationRequestInvalid); }
      var collision := deps.customersRepo.FindByPhoneHash(newHash);
      if collision.Some? && collision.value != q.uuid { return Error(400, ValidationPhoneAlreadyRegistered); }
      var sealed := deps.env.crypto.seal(q.iv, normalised.value);
      var existing := deps.phoneChangesRepo.FindActiveForAccount(q.uuid);
      if existing.Some? {
        var _ := deps.phoneChangesRepo.Cancel(existing.value, PC.SupersededByNewInitiate, now);
      }
      if q.verificationMethod == PC.OtpToOldPhone {
        reply := CompleteAtOnce(q, jti, account.value.phoneHash, newHash, sealed, now);
      } else {
        reply := ChallengeNewPhone(q, jti, newHash, sealed, now);
      }
    }

    method InitiateChange(q: Initiation, now: Time) returns (reply: Reply)
      requires deps.Wired()
      modifies deps.Repr()
      ensures Result(deps.State(), reply) == Initiate(deps.env, old(deps.State()), q, now)
    {
      if q.token.None? { return Error(401, AuthFactorRequired); }
      var want := SV.Expectation(IDENTITI_AUDIENCE, q.uuid, PHONE_CHANGE_OPERATION_KIND);
      var verification := deps.stepupVerifier.Verify(q.token.value, want, now);
      match verification {
        case TokenHasExpired => return Error(401, StepupTokenExpired);
        case Invalid(_) => return Error(401, StepupTokenInvalid);
        case Valid(jti, _) => reply := Change(q, jti, now);
      }
    }

    method SwapConfirmed(change: PC.Change, now: Time) returns (reply: Reply)
      requires deps.Wired()
      modifies deps.Repr()
      ensures var i := change.info;
        var r := Swapped(old(deps.State()), i.accountId, i.id, i.newPhoneHash, i.newPhoneEncrypted,
            PC.OtpToNewPhoneWithStepUpToOld,
                         i.authorisingStepupJti, 200, now);
        Result(deps.State(), reply) ==
          if r.reply.Ok? then Result(r.state.(changes := PC.WithCompleted(r.state.changes, i.id, now)), r.reply) else r
    {
      var i := change.info;
      var previous := deps.customersRepo.FindById(i.accountId);
      var oldHash := if previous.Some? then previous.value.phoneHash else "";
      reply := SwapAndPublish(i.accountId, i.id, oldHash, i.newPhoneHash, i.newPhoneEncrypted,
          PC.OtpToNewPhoneWithStepUpToOld,
                              i.authorisingStepupJti, 200, now);
      if reply.Ok? {
        var _ := deps.phoneChangesRepo.Complete(i.id, now);
      }
    }

    method Answer(change: PC.Change, challenge: AC.Challenge, cid: Id, matches: bool, now: Time) returns (reply: Reply)
      requires deps.Wired() && cid in deps.challengesRepo.data && deps.challengesRepo.data[cid] == challenge
      modifies deps.Repr()
      ensures Result(deps.State(), reply) == Answered(old(deps.State()), change, cid, matches, now)
    {
      match AC.ConfirmDecision(challenge, matches, now) {
        case Refuse(r) =>
          var reason := if challenge.info.otpHash.None? then PC.ChallengeMissing
              else PC.ChallengeNotPending(challenge.status);
          var _ := deps.phoneChangesRepo.Cancel(change.info.id, reason, now);
          return r;
        case RecordAndRefuse(next, r) =>
          var _ := deps.challengesRepo.RecordAttempt(cid, next);
          if next.status == AC.Failed {
            var _ := deps.phoneChangesRepo.Cancel(change.info.id, PC.MaxOtpAttempts, now);
          }
          return r;
        case RecordAndProceed(next) =>
          var _ := deps.challengesRepo.RecordAttempt(cid, next);
          deps.NoteAnswer(cid, matches);
          reply := SwapConfirmed(change, now);
      }
    }

    method ConfirmChange(uuid: Id, changeId: Id, matches: bool, now: Time) returns (reply: Reply)
      requires deps.Wired()
      modifies deps.Repr()
      ensures Result(deps.State(), reply) == Confirm(old(deps.State()), uuid, changeId, matches, now)
    {
      var change := deps.phoneChangesRepo.FindById(changeId);
      if change.None? || change.value.info.accountId != uuid { return Error(404, PhoneChangeNotFound); }
      if change.value.state != PC.CooldownActive { return WRONG_STATE; }
      if change.value.info.expiresAt <= now {
        var _ := deps.phoneChangesRepo.Cancel(changeId, PC.AwaitingConfirmationExpired, now);
        return Error(410, AuthChallengeExpired);
      }
      if change.value.info.challengeNewId.None? { return INTERNAL; }
      var cid := change.value.info.challengeNewId.value;
      var challenge := deps.challengesRepo.FindById(cid);
      if challenge.None? {
        var _ := deps.phoneChangesRepo.Cancel(changeId, PC.ChallengeMissing, now);
        return INTERNAL;
      }
      reply := Answer(change.value, challenge.value, cid, matches, now);
    }
  }

  class CustomersRoutes {
    const deps: Deps

    constructor (deps: Deps)
      ensures this.deps == deps
    {
      this.deps := deps;
    }

    method Create(phone: string, consented: bool, uuid: Id, appId: Id, assignmentId: Id, iv: Crypto.Bytes, now: Time)
        returns (reply: Reply)
      requires deps.Wired()
      modifies deps.Repr()
      ensures Result(deps.State(), reply) == CreateCustomer(deps.env, old(deps.State()), phone, consented, uuid, appId,
          assignmentId, iv, now)
    {
      if !consented { return Error(400, ValidationConsentMissing); }
      var normalised := PhoneNormalise.Normalise(phone);
      if normalised.None? { return Error(400, ValidationPhoneInvalid); }
      var hash := deps.env.crypto.hash(normalised.value);
      var encrypted := deps.env.crypto.seal(iv, normalised.value);
      var outcome := deps.customersRepo.Create(uuid, hash, encrypted, appId, assignmentId, now);
      if outcome == Cust.PhoneTaken {
        var existing := deps.customersRepo.FindByPhoneHash(hash);
        var row := deps.customersRepo.FindById(existing.value);
        if row.Some? && row.value.originAppId == appId { return Ok(200); }
        return Error(400, ValidationPhoneAlreadyRegistered);
      }
      if outcome != Cust.Done { return INTERNAL; }
      deps.eventProducer.PublishAccountEvent(AccountCreated(uuid, Cust.PendingOnboarding, Cust.Tier0));
      return Ok(201);
    }

    /** Activation, and the operator's suspend and reactivate, which differ in their states and their event. */
    method Transition(k: TransitionKind, uuid: Id) returns (reply: Reply)
      requires deps.Wired()
      modifies deps.Repr()
      ensures Result(deps.State(), reply) == ChangeState(old(deps.State()), k, uuid)
    {
      var outcome, fromState := deps.customersRepo.ChangeState(uuid, FromStates(k), ToState(k));
      if outcome != Cust.Done {
        var existing := deps.customersRepo.FindById(uuid);
        if existing.None? { return UNKNOWN_CUSTOMER; }
        if k == Activate && existing.value.state == Cust.Active { return Ok(200); }
        return WRONG_STATE;
      }
      deps.eventProducer.PublishAccountEvent(StateChanged(uuid, k, fromState, ToState(k)));
      return Ok(200);
    }

    method IssueAudienceToken(uuid: Id, audience: string, ttlSeconds: Option<int>, jti: Id, now: Time)
        returns (reply: Reply)
      requires deps.Wired()
      modifies deps.Repr()
      ensures Result(deps.State(), reply) == AudienceToken(deps.env, old(deps.State()), uuid, audience,
          ttlSeconds, jti, now)
    {
      if audience == "" { return Error(400, ValidationRequestInvalid); }
      if audience !in CROSS_RAIL_AUDIENCE_WHITELIST { return Error(403, TokenAudienceNotPermitted); }
      var ttl := AUDIENCE_TOKEN_TTL_DEFAULT_SECONDS;
      if ttlSeconds.Some? {
        if ttlSeconds.value < AUDIENCE_TOKEN_TTL_MIN_SECONDS || ttlSeconds.value > AUDIENCE_TOKEN_TTL_MAX_SECONDS {
          return Error(400, ValidationRequestInvalid);
        }
        ttl := ttlSeconds.value;
      }
      var account := deps.customersRepo.FindById(uuid);
      if account.None? { return UNKNOWN_CUSTOMER; }
      if account.value.state != Cust.Active { return WRONG_STATE; }
      deps.issued := deps.issued + {BearerToken(deps.env, uuid, jti, [audience], ttl, now)};
      return Ok(200);
    }
  }

  class TierRoutes {
    const deps: Deps

    constructor (deps: Deps)
      ensures this.deps == deps
    {
      this.deps := deps;
    }

    /** `setTier`, then TIER_CHANGED: the whole of the override, and the promotion of the other two. */
    method Assign(uuid: Id, tier: Cust.Tier, reason: string, assignmentId: Id, status: nat, now: Time)
        returns (reply: Reply)
      requires deps.Wired()
      modifies deps.Repr()
      ensures Result(deps.State(), reply) == AssignTier(old(deps.State()), uuid, tier, reason,
          assignmentId, status, now)
    {
      var outcome, fromTier := deps.customersRepo.SetTier(uuid, tier, reason, assignmentId, now);
      if outcome == Cust.NotFound { return UNKNOWN_CUSTOMER; }
      if outcome != Cust.Done { return INTERNAL; }
      deps.eventProducer.PublishAccountEvent(TierChanged(uuid, fromTier, tier, reason));
      return Ok(status);
    }

    method Iprs(uuid: Id, refusal: Option<Reply>, assignmentId: Id, now: Time) returns (reply: Reply)
      requires deps.Wired()
      modifies deps.Repr()
      ensures Result(deps.State(), reply) == IprsLookup(old(deps.State()), uuid, refusal, assignmentId, now)
    {
      var account := deps.customersRepo.FindById(uuid);
      if account.None? { return UNKNOWN_CUSTOMER; }
      if refusal.Some? { return refusal.value; }
      if account.value.tier != Cust.Tier0 { return Ok(201); }
      reply := Assign(uuid, Cust.Tier1, IPRS_VERIFIED, assignmentId, 201, now);
    }

    method Approve(uuid: Id, recordTier: Cust.Tier, refusal: Option<Reply>, assignmentId: Id, now: Time)
        returns (reply: Reply)
      requires deps.Wired()
      modifies deps.Repr()
      ensures Result(deps.State(), reply) == ApproveKyc(old(deps.State()), uuid, recordTier, refusal, assignmentId, now)
    {
      if refusal.Some? { return refusal.value; }
      var account := deps.customersRepo.FindById(uuid);
      if account.None? || account.value.tier != Cust.Tier0 || recordTier != Cust.Tier1 { return Ok(200); }
      reply := Assign(uuid, Cust.Tier1, TIER_1_KYC_COMPLETE, assignmentId, 200, now);
    }
  }
}
