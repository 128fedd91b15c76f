/**
 * Where authority comes from, and that it is used once: every token row goes back to a
 * consumed, correctly answered challenge; every signed token that carries an operation
 * goes back to a row; and every phone change and every delegated signing has a spent
 * row of its own. Each lemma is about one elementary change of the stores.
 */
module RailAuthority {
  import opened Domain
  import opened Rail
  import AC = AuthChallenges
  import SU = StepUpTokens
  import PC = PhoneChanges
  import SV = StepupVerifier
  import Req = StepupRequests
  import Jwt

  predicate MintedFrom(h: AC.Challenges, answered: set<Id>, jti: Id, row: SU.TokenRow) {
    && jti in h && h[jti].status == AC.Consumed && jti in answered
    && Req.BoundToOperation(h[jti].info)
    && SU.CopiesChallenge(row.info, h[jti].info) && SU.LivesByRisk(row.info)
  }

  /** The claims of a signed token say what its row says; a claim is in whole seconds. */
  predicate RepeatsRow(issuer: string, i: SU.TokenInfo, c: Jwt.Claims) {
    && c.iss == issuer && c.aud == [i.audience]
    && c.sub == (if i.accountUuid.Some? then i.accountUuid else i.operatorUserId)
    && c.iat == Jwt.Seconds(i.iat) && c.nbf == Some(Jwt.Seconds(i.iat)) && c.exp == Jwt.Seconds(i.exp)
    && c.jti == Some(i.jti) && c.operationKind == Some(i.operationKind)
  }

  /** A signed token with an operation repeats the stored row of its `jti` claim by claim. */
  predicate Backed(issuer: string, tokens: SU.Tokens, t: Jwt.Token) {
    t.claims.operationKind.Some? ==>
      t.claims.jti.Some? && t.claims.jti.value in tokens &&
          RepeatsRow(issuer, tokens[t.claims.jti.value].info, t.claims)
  }

  ghost predicate ChallengesOk(h: AC.Challenges) {
    forall id :: id in h ==> h[id].info.id == id && Req.Creatable(h[id].info)
  }

  /** A challenge is consumed exactly when a correct answer consumed it. */
  ghost predicate AnsweredOk(h: AC.Challenges, answered: set<Id>) {
    forall id :: id in answered <==> id in h && h[id].status == AC.Consumed
  }

  ghost predicate TokensOk(h: AC.Challenges, tokens: SU.Tokens, answered: set<Id>) {
    AnsweredOk(h, answered) && forall j :: j in tokens ==> MintedFrom(h, answered, j, tokens[j])
  }

  ghost predicate IssuedOk(issuer: string, tokens: SU.Tokens, issued: set<Jwt.Token>) {
    forall t :: t in issued ==> Backed(issuer, tokens, t)
  }

  lemma ChallengeKeepsTokens(h: AC.Challenges, tokens: SU.Tokens, answered: set<Id>, info: AC.ChallengeInfo, now: Time)
    requires ChallengesOk(h) && TokensOk(h, tokens, answered) && Req.Creatable(info)
    ensures var h' := AC.WithChallenge(h, info, now);
      ChallengesOk(h') && TokensOk(h', tokens, answered)
  {
    var h' := AC.WithChallenge(h, info, now);
    forall j | j in tokens ensures MintedFrom(h', answered, j, tokens[j]) {
      assert MintedFrom(h, answered, j, tokens[j]);
    }
  }

  /** An attempt only touches a pending row, and a pending row has no token. */
  lemma AttemptKeepsTokens(h: AC.Challenges, tokens: SU.Tokens, answered: set<Id>, id: Id, next: AC.AttemptUpdate)
    requires ChallengesOk(h) && TokensOk(h, tokens, answered) && next.status != AC.Consumed
    ensures var h' := AC.WithAttempt(h, id, next);
      ChallengesOk(h') && TokensOk(h', tokens, answered)
  {
    var h' := AC.WithAttempt(h, id, next);
    forall j | j in tokens ensures MintedFrom(h', answered, j, tokens[j]) {
      assert MintedFrom(h, answered, j, tokens[j]);
    }
  }

  lemma ConsumeKeepsTokens(h: AC.Challenges, tokens: SU.Tokens, answered: set<Id>, id: Id, now: Time)
    requires ChallengesOk(h) && TokensOk(h, tokens, answered) && id in h && h[id].status == AC.Pending
    ensures id !in tokens
    ensures var h' := AC.WithAttempt(h, id, AC.Success(now));
      ChallengesOk(h') && TokensOk(h', tokens, answered + {id})
  {
    var h' := AC.WithAttempt(h, id, AC.Success(now));
    forall j | j in tokens ensures MintedFrom(h', answered + {id}, j, tokens[j]) {
      assert MintedFrom(h, answered, j, tokens[j]);
    }
    assert id in tokens ==> MintedFrom(h, answered, id, tokens[id]);
  }

  lemma SpendKeepsTokens(issuer: string, h: AC.Challenges, tokens: SU.Tokens, answered: set<Id>,
      issued: set<Jwt.Token>, jti: Id, now: Time)
    requires TokensOk(h, tokens, answered) && IssuedOk(issuer, tokens, issued)
    ensures var tokens' := SU.WithConsumed(tokens, jti, now);
      TokensOk(h, tokens', answered) && IssuedOk(issuer, tokens', issued)
  {
    var tokens' := SU.WithConsumed(tokens, jti, now);
    forall j | j in tokens' ensures MintedFrom(h, answered, j, tokens'[j]) {
      assert MintedFrom(h, answered, j, tokens[j]);
    }
    forall t | t in issued ensures Backed(issuer, tokens', t) {
      assert Backed(issuer, tokens, t);
    }
  }

  /** A pending challenge cannot have a token yet; consuming and minting in one go keeps every link. */
  lemma MintKeepsTokens(env: Env, s: State, id: Id, response: AC.FactorResponse, now: Time)
    requires ChallengesOk(s.challenges) && TokensOk(s.challenges, s.tokens, s.answered) &&
        IssuedOk(env.issuer, s.tokens, s.issued)
    requires AC.StepupDecision(Lookup(s.challenges, id), response, now).RecordAndProceed?
    ensures id !in s.tokens && Accepted(response)
    ensures var row := SU.Minted(s.challenges[id].info, now);
      var tokens', h' := SU.WithToken(s.tokens, row), AC.WithAttempt(s.challenges, id, AC.Success(now));
      && row.jti == id && ChallengesOk(h') && TokensOk(h', tokens', s.answered + {id})
      && IssuedOk(env.issuer, tokens', s.issued + {Jwt.Token(Some(env.signingKey), StepupClaims(env.issuer, row))})
  {
    var c := s.challenges[id];
    var row := SU.Minted(c.info, now);
    Req.OnlyBoundChallengesProceed(c, response, now);
    ConsumeKeepsTokens(s.challenges, s.tokens, s.answered, id, now);
    var h', tokens' := AC.WithAttempt(s.challenges, id, AC.Success(now)), SU.WithToken(s.tokens, row);
    forall j | j in tokens' ensures MintedFrom(h', s.answered + {id}, j, tokens'[j]) {
      assert j != id ==> MintedFrom(h', s.answered + {id}, j, s.tokens[j]);
    }
    forall t | t in s.issued ensures Backed(env.issuer, tokens', t) {
      assert Backed(env.issuer, s.tokens, t);
    }
  }

  // Single use.

  predicate Authorises(tokens: SU.Tokens, jti: Id, accountId: Id) {
    SU.Spent(tokens, jti) && tokens[jti].info.accountUuid == Some(accountId)
  }

  predicate AuthorisesChange(tokens: SU.Tokens, jti: Id, accountId: Id) {
    Authorises(tokens, jti, accountId)
    && tokens[jti].info.operationKind == PHONE_CHANGE_OPERATION_KIND && tokens[jti].info.audience == IDENTITI_AUDIENCE
  }

  /** Everything that has used up a token: the change rows and the signings that name one. */
  datatype Use = ByChange(id: Id) | BySigning(id: Id)

  function UsedBy(p: PC.Table, g: SU.Signings, u: Use): Option<Id> {
    match u
    case ByChange(id) => if id in p.rows then Some(p.rows[id].info.authorisingStepupJti) else None
    case BySigning(id) => if id in g then g[id].stepUpJti else None
  }

  predicate UseIsAuthorised(tokens: SU.Tokens, p: PC.Table, g: SU.Signings, u: Use)
    requires UsedBy(p, g, u).Some?
  {
    match u
    case ByChange(id) => AuthorisesChange(tokens, p.rows[id].info.authorisingStepupJti, p.rows[id].info.accountId)
    case BySigning(id) => Authorises(tokens, g[id].stepUpJti.value, g[id].accountUuid)
  }

  ghost predicate SpendInv(tokens: SU.Tokens, p: PC.Table, g: SU.Signings) {
    && (forall u :: UsedBy(p, g, u).Some? ==> UseIsAuthorised(tokens, p, g, u))
    && (forall u, v :: u != v && UsedBy(p, g, u).Some? ==> UsedBy(p, g, u) != UsedBy(p, g, v))
  }

  ghost predicate Unused(p: PC.Table, g: SU.Signings, jti: Id) {
    forall u :: UsedBy(p, g, u) != Some(jti)
  }

  /** Rows of the ledger are never dropped, rewritten or unspent. */
  ghost predicate TokensGrow(t: SU.Tokens, t': SU.Tokens) {
    forall j :: j in t ==> j in t' && t'[j].info == t[j].info && (t[j].consumedAt.Some? ==> t'[j].consumedAt.Some?)
  }

  /** The change rows may move through their states but keep what they were created with. */
  ghost predicate SameInfos(p: PC.Table, p': PC.Table) {
    p'.rows.Keys == p.rows.Keys && forall id :: id in p.rows ==> p'.rows[id].info == p.rows[id].info
  }

  lemma QuietStepsKeepSpendInv(t: SU.Tokens, t': SU.Tokens, p: PC.Table, p': PC.Table, g: SU.Signings)
    requires SpendInv(t, p, g) && TokensGrow(t, t') && SameInfos(p, p')
    ensures SpendInv(t', p', g)
    ensures forall jti :: Unused(p, g, jti) ==> Unused(p', g, jti)
  {
    forall u ensures UsedBy(p', g, u) == UsedBy(p, g, u) && (UsedBy(p', g, u).Some? ==> UseIsAuthorised(t', p', g, u)) {
      assert u.ByChange? ==> (u.id in p'.rows <==> u.id in p.rows);
      assert UsedBy(p, g, u).Some? ==> UseIsAuthorised(t, p, g, u);
    }
  }

  /** Spending marks the row, and nothing has used it before. */
  lemma SpendingYieldsUnusedToken(t: SU.Tokens, p: PC.Table, g: SU.Signings, jti: Id, now: Time)
    requires SpendInv(t, p, g) && SU.Unspent(t, jti)
    ensures var t' := SU.WithConsumed(t, jti, now);
      SpendInv(t', p, g) && SU.Spent(t', jti) && Unused(p, g, jti)
  {
    QuietStepsKeepSpendInv(t, SU.WithConsumed(t, jti, now), p, p, g);
    forall u ensures UsedBy(p, g, u) != Some(jti) {
      assert UsedBy(p, g, u).Some? ==> UseIsAuthorised(t, p, g, u);
    }
  }

  lemma NewChangeKeepsSpendInv(t: SU.Tokens, p: PC.Table, g: SU.Signings, info: PC.ChangeInfo,
      state: PC.ChangeState, now: Time)
    requires SpendInv(t, p, g) && Unused(p, g, info.authorisingStepupJti) &&
        AuthorisesChange(t, info.authorisingStepupJti, info.accountId)
    ensures SpendInv(t, PC.WithChange(p, info, state, now), g)
  {
    var p' := PC.WithChange(p, info, state, now);
    forall u | u != ByChange(info.id)
      ensures UsedBy(p', g, u) == UsedBy(p, g, u) && (UsedBy(p', g, u).Some? ==> UseIsAuthorised(t, p', g, u))
    {
      assert UsedBy(p, g, u).Some? ==> UseIsAuthorised(t, p, g, u);
    }
  }

  lemma NewSigningKeepsSpendInv(t: SU.Tokens, p: PC.Table, g: SU.Signings, row: SU.Signing)
    requires SpendInv(t, p, g)
    requires row.stepUpJti.Some? ==>
        Unused(p, g, row.stepUpJti.value) && Authorises(t, row.stepUpJti.value, row.accountUuid)
    ensures SpendInv(t, p, SU.WithSigning(g, row))
  {
    var g' := SU.WithSigning(g, row);
    forall u | u != BySigning(row.jti)
      ensures UsedBy(p, g', u) == UsedBy(p, g, u) && (UsedBy(p, g', u).Some? ==> UseIsAuthorised(t, p, g', u))
    {
      assert UsedBy(p, g, u).Some? ==> UseIsAuthorised(t, p, g, u);
    }
  }

  lemma KindIsNotForOperators()
    ensures !SU.IsOperatorKind(PHONE_CHANGE_OPERATION_KIND)
  {
    assert PHONE_CHANGE_OPERATION_KIND[0] != "operator."[0];
  }

  /** A token the verifier accepts, and the service issued, has a row for this account and this operation. */
  lemma AcceptedTokensAreBacked(env: Env, s: State, q: Initiation, now: Time)
    requires TokensOk(s.challenges, s.tokens, s.answered) && ChallengesOk(s.challenges) &&
        IssuedOk(env.issuer, s.tokens, s.issued)
    requires q.token.Some? && Presentable(env, s, q.token.value) && WithStepupSpent(env, s, q, now).1.Valid?
    ensures var (spent, v) := WithStepupSpent(env, s, q, now);
      && SU.Unspent(s.tokens, v.jti) && spent == s.(tokens := SU.WithConsumed(s.tokens, v.jti, now))
      && AuthorisesChange(spent.tokens, v.jti, q.uuid)
  {
    var t := q.token.value;
    var want := SV.Expectation(IDENTITI_AUDIENCE, q.uuid, PHONE_CHANGE_OPERATION_KIND);
    SV.AcceptedExactlyWhen(env.verifierKeys, env.issuer, t, want, now);
    assert Backed(env.issuer, s.tokens, t);
    var jti := t.claims.jti.value;
    assert MintedFrom(s.challenges, s.answered, jti, s.tokens[jti]);
    KindIsNotForOperators();
  }

  /**
   * Only a token with an operation gets an initiate past its first gate: the bearer tokens of the
   * same key never do.
   */
  lemma BearerTokensNeverInitiate(env: Env, s: State, q: Initiation, now: Time)
    requires q.token.Some? && q.token.value.claims.operationKind.None?
    ensures Initiate(env, s, q, now).state == s && Initiate(env, s, q, now).reply.Error? &&
        Initiate(env, s, q, now).reply.status == 401
  {
    SV.AcceptedExactlyWhen(env.verifierKeys, env.issuer, q.token.value,
                           SV.Expectation(IDENTITI_AUDIENCE, q.uuid, PHONE_CHANGE_OPERATION_KIND), now);
  }
}
