/**
 * Who may be challenged for what: the subject and factor rules of POST
 * /v1/stepup/challenges (src/routes/stepup.ts), and the shapes of the challenges the
 * other routes create.
 */
module StepupRequests {
  import opened Domain
  import opened AuthChallenges
  import StepUpTokens

  datatype StepupRequest = StepupRequest(
    accountUuid: Option<Id>, operatorUserId: Option<Id>, audience: string, kind: string, riskTier: RiskTier,
    factor: Factor, actor: Option<Actor>, initiatedBy: Option<InitiatedBy>)

  /** The checks made before any lookup; `None` means that the request goes on. */
  function RequestError(q: StepupRequest): Option<Reply> {
    if StepUpTokens.IsOperatorKind(q.kind) then
      if q.operatorUserId.None? || q.accountUuid.Some? then Some(Error(400, ValidationRequestInvalid))
      else if q.factor != HardwareKey then Some(Error(400, AuthFactorUnsupported))
      else None
    else
      if q.accountUuid.None? || q.operatorUserId.Some? then Some(Error(400, ValidationRequestInvalid))
      else if q.factor != PhoneOtp then Some(Error(400, AuthFactorUnsupported))
      else None
  }

  function StepupInfo(q: StepupRequest, id: Id, appId: Id, secret: string, now: Time): ChallengeInfo {
    var operatorMode := StepUpTokens.IsOperatorKind(q.kind);
    ChallengeInfo(
      id, q.accountUuid, q.operatorUserId, appId, q.factor, StepUp,
      if operatorMode then None else Some(secret), if operatorMode then Some(secret) else None,
      now + StepUpTokens.TtlSeconds(q.riskTier) * SECOND_MS,
      Some(q.kind), Some(q.audience), Some(q.riskTier), q.actor, q.initiatedBy)
  }

  /** A challenge bound to a step-up operation: one subject, which is an operator exactly for `operator.*` kinds. */
  predicate BoundToOperation(i: ChallengeInfo) {
    && i.purpose == StepUp
    && i.intendedOperation.Some? && i.operationAudience.Some? && i.riskTier.Some?
    && (i.accountId.Some? <==> i.operatorUserId.None?)
    && (i.operatorUserId.Some? <==> StepUpTokens.IsOperatorKind(i.intendedOperation.value))
    && (i.factor == HardwareKey <==> i.operatorUserId.Some?)
    && (i.factor == PhoneOtp <==> i.accountId.Some?)
    && (i.otpHash.Some? <==> i.accountId.Some?)
  }

  /** Challenges of /v1/auth/challenges: any of its four purposes, but never bound to an operation. */
  predicate Unbound(i: ChallengeInfo) {
    && i.purpose in {Login, StepUp, PhoneChangeToOld, PhoneChangeToNew}
    && i.accountId.Some? && i.operatorUserId.None? && i.factor == PhoneOtp && i.otpHash.Some?
    && i.intendedOperation.None? && i.operationAudience.None? && i.riskTier.None?
  }

  /** The challenge a two-phone change sends to the new number. */
  predicate ForNewPhone(i: ChallengeInfo) {
    i.purpose == PhoneChangeToNew && i.accountId.Some? && i.operatorUserId.None? &&
        i.factor == PhoneOtp && i.otpHash.Some?
  }

  /** The challenge of a WebAuthn enrolment. */
  predicate ForRegistration(i: ChallengeInfo) {
    && i.purpose == OperatorWebauthnRegister && i.operatorUserId.Some? && i.accountId.None?
    && i.factor == HardwareKey && i.otpHash.None? && i.intendedOperation.None?
  }

  predicate Creatable(i: ChallengeInfo) {
    BoundToOperation(i) || Unbound(i) || ForNewPhone(i) || ForRegistration(i)
  }

  /** The request rules are exactly what makes the stored challenge well bound. */
  lemma AcceptedRequestsAreBound(q: StepupRequest, id: Id, appId: Id, secret: string, now: Time)
    ensures RequestError(q).None? <==> BoundToOperation(StepupInfo(q, id, appId, secret, now))
  {}

  /** Every row an endpoint of the service accepts a success for is bound, whatever route created it. */
  lemma OnlyBoundChallengesProceed(c: Challenge, response: FactorResponse, now: Time)
    requires Creatable(c.info) && StepupDecision(Some(c), response, now).RecordAndProceed?
    ensures BoundToOperation(c.info)
    ensures if c.info.operatorUserId.Some? then response.Assertion? && response.accepted
        else response.TextCode? && response.matches
  {}
}
