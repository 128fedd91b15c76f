/**
 * The challenge store and the challenge state machine
 * (src/repositories/authChallenges.ts, src/repositories/authChallenges.memory.ts), with
 * the decisions the three endpoints that answer a challenge take on the row they read.
 */
module AuthChallenges {
  import opened Domain

  const MAX_OTP_ATTEMPTS := 3

  datatype Factor = PhoneOtp | HardwareKey | PassiveBiometric
  datatype Purpose = Login | StepUp | PhoneChangeToOld | PhoneChangeToNew | OperatorWebauthnRegister
  datatype Status = Pending | Consumed | Expired | Failed
  datatype RiskTier = Low | Medium | High | VeryHigh
  datatype InitiatedBy = ByHuman | ByAgent | BySystem
  datatype Actor = Actor(agentId: Option<Id>, delegatedAuthorityJti: Option<Id>)

  /** The part of a challenge fixed at creation. */
  datatype ChallengeInfo = ChallengeInfo(
    id: Id, accountId: Option<Id>, operatorUserId: Option<Id>, appId: Id, factor: Factor, purpose: Purpose,
    otpHash: Option<string>, factorData: Option<string>, expiresAt: Time,
    intendedOperation: Option<string>, operationAudience: Option<string>, riskTier: Option<RiskTier>,
    actor: Option<Actor>, initiatedBy: Option<InitiatedBy>)

  datatype Challenge = Challenge(
    info: ChallengeInfo, attemptsUsed: nat, status: Status, consumedAt: Option<Time>, createdAt: Time)

  datatype AttemptUpdate = AttemptUpdate(status: Status, consumedAt: Option<Time>, increment: bool)

  type Challenges = map<Id, Challenge>

  function Fresh(info: ChallengeInfo, now: Time): Challenge {
    Challenge(info, 0, Pending, None, now)
  }

  /** The primary key rejects an id already present. */
  function WithChallenge(m: Challenges, info: ChallengeInfo, now: Time): Challenges {
    if info.id in m then m else m[info.id := Fresh(info, now)]
  }

  function Updated(c: Challenge, next: AttemptUpdate): Challenge {
    c.(attemptsUsed := if next.increment then c.attemptsUsed + 1 else c.attemptsUsed,
       status := next.status,
       consumedAt := next.consumedAt)
  }

  /** Terminal states absorb every later attempt. */
  function WithAttempt(m: Challenges, id: Id, next: AttemptUpdate): Challenges {
    if id in m && m[id].status == Pending then m[id := Updated(m[id], next)] else m
  }

  class AuthChallengesRepo {
    var data: Challenges

    constructor ()
      ensures data == map[]
    {
      data := map[];
    }

    method Create(info: ChallengeInfo, now: Time) returns (created: bool)
      modifies this
      ensures data == WithChallenge(old(data), info, now)
      ensures created <==> info.id !in old(data)
    {
      created := info.id !in data;
      if created {
        data := data[info.id := Fresh(info, now)];
      }
    }

    method FindById(id: Id) returns (r: Option<Challenge>)
      ensures r == if id in data then Some(data[id]) else None
    {
      r := if id in data then Some(data[id]) else None;
    }

    method RecordAttempt(id: Id, next: AttemptUpdate) returns (r: Option<Challenge>)
      modifies this
      ensures data == WithAttempt(old(data), id, next)
      ensures r == if id in data then Some(data[id]) else None
    {
      if id !in data { return None; }
      var c := data[id];
      if c.status != Pending { return Some(c); }
      if next.increment { c := c.(attemptsUsed := c.attemptsUsed + 1); }
      c := c.(status := next.status);
      c := c.(consumedAt := next.consumedAt);
      data := data[id := c];
      return Some(c);
    }
  }

  // What an endpoint does with the row it has read.

  /**
   * A text code, with the verdict of the one-way comparison, or a WebAuthn assertion, with the
   * verdict of its check.
   */
  datatype FactorResponse = TextCode(matches: bool) | Assertion(accepted: bool)

  datatype Decision =
    | Refuse(reply: Reply)
    | RecordAndRefuse(next: AttemptUpdate, reply: Reply)
    | RecordAndProceed(next: AttemptUpdate)

  const FACTOR_FAILED := Error(401, AuthFactorFailed)

  /** A wrong answer: the limit is applied to the count in the row that was read. */
  function FailureUpdate(c: Challenge, now: Time): AttemptUpdate {
    if c.attemptsUsed + 1 >= MAX_OTP_ATTEMPTS then AttemptUpdate(Failed, Some(now), true)
    else AttemptUpdate(Pending, None, true)
  }

  function Success(now: Time): AttemptUpdate {
    AttemptUpdate(Consumed, Some(now), true)
  }

  const EXPIRY := AttemptUpdate(Expired, None, false)

  /** POST /v1/stepup/verify. */
  function StepupDecision(read: Option<Challenge>, response: FactorResponse, now: Time): Decision {
    if read.None? then Refuse(FACTOR_FAILED)
    else
      var c := read.value;
      if c.info.purpose != StepUp then Refuse(FACTOR_FAILED)
      else if c.status != Pending then Refuse(FACTOR_FAILED)
      else if c.info.expiresAt <= now then RecordAndRefuse(EXPIRY, Error(410, AuthChallengeExpired))
      else if c.info.factor == HardwareKey && !response.Assertion? then Refuse(Error(400, AuthFactorUnsupported))
      else if c.info.factor == HardwareKey && c.info.factorData.None? then Refuse(Error(500, InternalUnspecified))
      else if c.info.factor != HardwareKey && (!response.TextCode? || c.info.otpHash.None?) then
        Refuse(Error(400, AuthFactorUnsupported))
      else if !(if response.Assertion? then response.accepted else response.matches) then
        RecordAndRefuse(FailureUpdate(c, now), FACTOR_FAILED)
      else if c.info.accountId.None? && c.info.operatorUserId.None? then Refuse(Error(500, InternalUnspecified))
      else if c.info.intendedOperation.None? || c.info.operationAudience.None? || c.info.riskTier.None? then
        Refuse(Error(500, InternalUnspecified))
      else RecordAndProceed(Success(now))
  }

  /** POST /v1/auth/customer-token. */
  function LoginDecision(read: Option<Challenge>, response: FactorResponse, now: Time): Decision {
    if read.None? then Refuse(FACTOR_FAILED)
    else
      var c := read.value;
      if c.status != Pending then Refuse(FACTOR_FAILED)
      else if c.info.purpose != Login then Refuse(FACTOR_FAILED)
      else if c.info.expiresAt <= now then RecordAndRefuse(EXPIRY, Error(410, AuthChallengeExpired))
      else if !response.TextCode? || c.info.otpHash.None? then Refuse(Error(400, AuthFactorUnsupported))
      else if !response.matches then RecordAndRefuse(FailureUpdate(c, now), FACTOR_FAILED)
      else if c.info.accountId.None? then Refuse(Error(500, InternalUnspecified))
      else RecordAndProceed(Success(now))
  }

  /** The challenge part of POST …/phone-change/confirm; the change row carries the deadline. */
  function ConfirmDecision(c: Challenge, matches: bool, now: Time): Decision {
    if c.info.otpHash.None? then Refuse(Error(500, InternalUnspecified))
    else if c.status != Pending then Refuse(FACTOR_FAILED)
    else if !matches then RecordAndRefuse(FailureUpdate(c, now), FACTOR_FAILED)
    else RecordAndProceed(Success(now))
  }
}
