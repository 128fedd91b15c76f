/**
 * The step-up token ledger (src/repositories/stepUpTokens.ts,
 * src/repositories/stepUpTokens.memory.ts) and the delegated-authority signing ledger
 * (src/repositories/delegatedAuthoritySignings.memory.ts).
 */
module StepUpTokens {
  import opened Domain
  import AC = AuthChallenges

  datatype TokenInfo = TokenInfo(
    jti: Id, accountUuid: Option<Id>, operatorUserId: Option<Id>, challengeId: Id, audience: string,
    operationKind: string, riskTier: AC.RiskTier, factor: AC.Factor, iat: Time, exp: Time,
    actor: Option<AC.Actor>, initiatedBy: Option<AC.InitiatedBy>)

  datatype TokenRow = TokenRow(info: TokenInfo, consumedAt: Option<Time>)

  type Tokens = map<Id, TokenRow>

  /** STEPUP_TTL_BY_RISK (src/schemas/stepup.ts). */
  function TtlSeconds(r: AC.RiskTier): int {
    match r case Low => 600 case Medium => 300 case High => 180 case VeryHigh => 60
  }

  predicate IsOperatorKind(kind: string) {
    "operator." <= kind
  }

  /** The row `/v1/stepup/verify` writes for a challenge it has accepted. */
  function Minted(c: AC.ChallengeInfo, now: Time): TokenInfo
    requires c.intendedOperation.Some? && c.operationAudience.Some? && c.riskTier.Some?
  {
    TokenInfo(c.id, c.accountId, c.operatorUserId, c.id, c.operationAudience.value, c.intendedOperation.value,
              c.riskTier.value, c.factor, now, now + TtlSeconds(c.riskTier.value) * SECOND_MS, c.actor, c.initiatedBy)
  }

  /** The seconds a token lives, by the risk of its operation: from ten minutes down to one. */
  predicate LivesByRisk(t: TokenInfo) {
    && (t.riskTier == AC.Low ==> t.exp == t.iat + 600 * 1000)
    && (t.riskTier == AC.Medium ==> t.exp == t.iat + 300 * 1000)
    && (t.riskTier == AC.High ==> t.exp == t.iat + 180 * 1000)
    && (t.riskTier == AC.VeryHigh ==> t.exp == t.iat + 60 * 1000)
  }

  /** A token row repeats its challenge field by field. */
  predicate CopiesChallenge(t: TokenInfo, c: AC.ChallengeInfo) {
    && t.jti == t.challengeId == c.id
    && t.accountUuid == c.accountId && t.operatorUserId == c.operatorUserId
    && Some(t.audience) == c.operationAudience && Some(t.operationKind) == c.intendedOperation
    && Some(t.riskTier) == c.riskTier && t.factor == c.factor
    && t.actor == c.actor && t.initiatedBy == c.initiatedBy
  }

  /** The primary key rejects a second token for one challenge. */
  function WithToken(m: Tokens, info: TokenInfo): Tokens {
    if info.jti in m then m else m[info.jti := TokenRow(info, None)]
  }

  predicate Unspent(m: Tokens, jti: Id) {
    jti in m && m[jti].consumedAt.None?
  }

  predicate Spent(m: Tokens, jti: Id) {
    jti in m && m[jti].consumedAt.Some?
  }

  /** `UPDATE … WHERE consumed_at IS NULL`. */
  function WithConsumed(m: Tokens, jti: Id, now: Time): Tokens {
    if Unspent(m, jti) then m[jti := m[jti].(consumedAt := Some(now))] else m
  }

  class StepUpTokensRepo {
    var data: Tokens

    constructor ()
      ensures data == map[]
    {
      data := map[];
    }

    method Create(info: TokenInfo) returns (created: bool)
      modifies this
      ensures data == WithToken(old(data), info)
      ensures created <==> info.jti !in old(data)
    {
      if info.jti in data { return false; }
      data := data[info.jti := TokenRow(info, None)];
      return true;
    }

    method FindByJti(jti: Id) returns (r: Option<TokenInfo>)
      ensures r == if jti in data then Some(data[jti].info) else None
    {
      r := if jti in data then Some(data[jti].info) else None;
    }

    method MarkConsumed(jti: Id, consumedAt: Time) returns (marked: bool)
      modifies this
      ensures data == WithConsumed(old(data), jti, consumedAt)
      ensures marked <==> Unspent(old(data), jti)
      ensures marked ==> Spent(data, jti)
    {
      if jti !in data { return false; }
      if data[jti].consumedAt.Some? { return false; }
      data := data[jti := data[jti].(consumedAt := Some(consumedAt))];
      return true;
    }
  }

  datatype Signing = Signing(jti: Id, accountUuid: Id, agentId: Id, stepUpJti: Option<Id>, scopes: seq<string>,
      signedAt: Time, expiresAt: Time)

  type Signings = map<Id, Signing>

  function WithSigning(m: Signings, s: Signing): Signings {
    if s.jti in m then m else m[s.jti := s]
  }

  class DelegatedAuthoritySigningsRepo {
    var data: Signings

    constructor ()
      ensures data == map[]
    {
      data := map[];
    }

    method Create(s: Signing) returns (created: bool)
      modifies this
      ensures data == WithSigning(old(data), s)
      ensures created <==> s.jti !in old(data)
    {
      if s.jti in data { return false; }
      data := data[s.jti := s];
      return true;
    }
  }
}
