/** Every request keeps the invariant: each handler is a composition of the elementary changes. */
module RailServe {
  import opened Domain
  import opened Rail
  import opened RailAuthority
  import opened RailPhoneChanges
  import opened RailRecords
  import opened RailInvariants
  import AC = AuthChallenges
  import SU = StepUpTokens
  import PC = PhoneChanges
  import Cust = Customers
  import Req = StepupRequests
  import DA = DelegatedAuthority
  import Crypto = PhoneCrypto
  import PhoneNormalise
  import PhoneCooldown
  import Jwt

  lemma StepupChallengeKeepsInv(
      env: Env, s: State, q: Req.StepupRequest, operatorRefusal: Option<Reply>, id: Id, appId: Id,
      secret: string, now: Time)
    requires Inv(env, s, now)
    ensures Inv(env, CreateStepupChallenge(s, q, operatorRefusal, id, appId, secret, now).state, now)
  {
    if Req.RequestError(q).None? {
      Req.AcceptedRequestsAreBound(q, id, appId, secret, now);
      ChallengeKeepsInv(env, s, Req.StepupInfo(q, id, appId, secret, now), now);
    }
  }

  lemma AuthChallengeKeepsInv(
      env: Env, s: State, phone: string, factor: AC.Factor, purpose: AC.Purpose, id: Id, appId: Id,
      secret: string, now: Time)
    requires Inv(env, s, now)
    ensures Inv(env, CreateAuthChallenge(env, s, phone, factor, purpose, id, appId, secret, now).state, now)
  {
    var normalised := PhoneNormalise.Normalise(phone);
    if RequestablePurpose(purpose) && normalised.Some? && env.crypto.hash(normalised.value) in s.customers.phoneHashes {
      var info := LoginInfo(s.customers.phoneHashes[env.crypto.hash(normalised.value)], purpose,
          id, appId, secret, now);
      assert Req.Unbound(info);
      ChallengeKeepsInv(env, s, info, now);
    }
  }

  lemma VerifyOutcome(env: Env, s: State, id: Id, response: AC.FactorResponse, now: Time)
    requires ChallengesOk(s.challenges)
    ensures var s' := AnswerStepup(env, s, id, response, now).state;
      match AC.StepupDecision(Lookup(s.challenges, id), response, now)
      case Refuse(_) => s' == s
      case RecordAndRefuse(next, _) =>
        && s' == s.(challenges := AC.WithAttempt(s.challenges, id, next))
        && s.challenges[id].info.purpose == AC.StepUp && next.status != AC.Consumed
      case RecordAndProceed(_) =>
        Req.BoundToOperation(s.challenges[id].info) && (id !in s.tokens ==> s' == MintedState(env, s, id, now))
  {
    var d := AC.StepupDecision(Lookup(s.challenges, id), response, now);
    if d.RecordAndProceed? {
      Req.OnlyBoundChallengesProceed(s.challenges[id], response, now);
    }
  }

  lemma VerifyKeepsInv(env: Env, s: State, id: Id, response: AC.FactorResponse, now: Time)
    requires Inv(env, s, now)
    ensures Inv(env, AnswerStepup(env, s, id, response, now).state, now)
  {
    VerifyOutcome(env, s, id, response, now);
    match AC.StepupDecision(Lookup(s.challenges, id), response, now)
    case Refuse(_) =>
    case RecordAndRefuse(next, _) => AttemptKeepsInv(env, s, id, next, now);
    case RecordAndProceed(_) => MintKeepsInv(env, s, id, response, now);
  }

  lemma LoginOutcome(env: Env, s: State, id: Id, response: AC.FactorResponse, jti: Id, audience: string, now: Time)
    returns (t: Jwt.Token)
    ensures t.claims.operationKind.None?
    ensures var s' := CustomerToken(env, s, id, response, jti, audience, now).state;
      match AC.LoginDecision(Lookup(s.challenges, id), response, now)
      case Refuse(_) => s' == s
      case RecordAndRefuse(next, _) =>
        && s' == s.(challenges := AC.WithAttempt(s.challenges, id, next))
        && id in s.challenges && s.challenges[id].info.purpose == AC.Login && next.status != AC.Consumed
      case RecordAndProceed(_) =>
        var recorded := Consuming(s, id, AC.Success(now), true);
        && id in s.challenges && s.challenges[id].status == AC.Pending
        && (s' == recorded || s' == recorded.(issued := recorded.issued + {t}))
  {
    var accountId: Id := 0;
    if AC.LoginDecision(Lookup(s.challenges, id), response, now).RecordAndProceed? {
      accountId := s.challenges[id].info.accountId.value;
    }
    t := BearerToken(env, accountId, jti, [IDENTITI_AUDIENCE, audience], PRIMARY_TOKEN_TTL_SECONDS, now);
  }

  lemma LoginKeepsInv(env: Env, s: State, id: Id, response: AC.FactorResponse, jti: Id, audience: string, now: Time)
    requires Inv(env, s, now)
    ensures Inv(env, CustomerToken(env, s, id, response, jti, audience, now).state, now)
  {
    var t := LoginOutcome(env, s, id, response, jti, audience, now);
    match AC.LoginDecision(Lookup(s.challenges, id), response, now)
    case Refuse(_) =>
    case RecordAndRefuse(next, _) => AttemptKeepsInv(env, s, id, next, now);
    case RecordAndProceed(_) =>
      ConsumeKeepsInv(env, s, id, now);
      BearerKeepsInv(env, Consuming(s, id, AC.Success(now), true), t, now);
  }

  lemma AudienceKeepsInv(env: Env, s: State, uuid: Id, audience: string, ttlSeconds: Option<int>, jti: Id, now: Time)
    requires Inv(env, s, now)
    ensures Inv(env, AudienceToken(env, s, uuid, audience, ttlSeconds, jti, now).state, now)
  {
    var ttl := if ttlSeconds.Some? then ttlSeconds.value else AUDIENCE_TOKEN_TTL_DEFAULT_SECONDS;
    BearerKeepsInv(env, s, BearerToken(env, uuid, jti, [audience], ttl, now), now);
  }

  lemma SignAndRecordKeepsInv(env: Env, s: State, kid: string, claims: DA.ClaimSet, now: Time)
    requires Inv(env, s, now)
    requires claims.stepUpJti.Some? ==>
        Unused(s.changes, s.signings, claims.stepUpJti.value) &&
        Authorises(s.tokens, claims.stepUpJti.value, claims.sub)
    ensures Inv(env, SignAndRecord(env, s, kid, claims, now).state, now)
  {
    match DA.SignResult(env.daKeys, env.issuer, env.tolerance, kid, claims, now)
    case Refused(_) =>
    case Signed(token, signedAt, expiresAt) =>
      SigningKeepsInv(env, s, SU.Signing(claims.jti, claims.sub, claims.agentId, claims.stepUpJti, claims.scopes,
          signedAt, expiresAt), token, now);
  }

  lemma SignKeepsInv(env: Env, s: State, appId: Id, kid: string, claims: DA.ClaimSet, now: Time)
    requires Inv(env, s, now)
    ensures Inv(env, InternalSign(env, s, appId, kid, claims, now).state, now)
  {
    if claims.stepUpJti.None? {
      SignAndRecordKeepsInv(env, s, kid, claims, now);
    } else {
      var jti := claims.stepUpJti.value;
      if SU.Unspent(s.tokens, jti) && s.tokens[jti].info.accountUuid == Some(claims.sub) {
        SpendKeepsInv(env, s, jti, now);
        SignAndRecordKeepsInv(env, s.(tokens := SU.WithConsumed(s.tokens, jti, now)), kid, claims, now);
      }
    }
  }

  // Phone changes.

  predicate PassesGates(env: Env, s: State, q: Initiation, now: Time) {
    && q.uuid in s.customers.accounts && !PhoneCooldown.IsInCooldown(s.customers.accounts[q.uuid].cooldownUntil, now)
    && PhoneNormalise.Normalise(q.newPhone).Some?
    && var hash := env.crypto.hash(PhoneNormalise.Normalise(q.newPhone).value);
    && hash != s.customers.accounts[q.uuid].phoneHash && Claimable(s.customers, q.uuid, hash)
  }

  lemma AuthorisedOutcome(env: Env, s: State, q: Initiation, jti: Id, now: Time)
    ensures var r := Authorised(env, s, q, jti, now).state;
      if !PassesGates(env, s, q, now) then r == s
      else
        var n := PhoneNormalise.Normalise(q.newPhone).value;
        var superseded := s.(changes := PC.WithExistingCancelled(s.changes, q.uuid, now));
        var hash, sealed := env.crypto.hash(n), env.crypto.seal(q.iv, n);
        r == if q.verificationMethod == PC.OtpToOldPhone then ChangeAtOnce(superseded, q, jti, hash, sealed, now).state
             else AwaitConfirmation(superseded, q, jti, hash, sealed, now).state
  {}

  /** What an initiate brings along when it reaches the rows. */
  ghost predicate MayChange(env: Env, s: State, q: Initiation, jti: Id, hash: string, sealed: Crypto.Bytes, now: Time) {
    && NoneActive(s.changes, q.uuid) && PastCooldown(s.customers.accounts, q.uuid, now)
    && Unused(s.changes, s.signings, jti) && AuthorisesChange(s.tokens, jti, q.uuid)
    && Claimable(s.customers, q.uuid, hash) && SealsHash(env.crypto, hash, sealed)
  }

  lemma ChangeAtOnceKeepsInv(env: Env, s: State, q: Initiation, jti: Id, hash: string, sealed: Crypto.Bytes, now: Time)
    requires Inv(env, s, now) && MayChange(env, s, q, jti, hash, sealed, now)
    ensures Inv(env, ChangeAtOnce(s, q, jti, hash, sealed, now).state, now)
  {
    var info := AtOnceInfo(q, jti, hash, sealed, now);
    if q.changeId !in s.changes.rows {
      AtOnceKeepsInv(env, s, info, now);
      var written := PC.WithChange(s.changes, info, PC.Completed, now);
      assert PC.WithCompleted(written, q.changeId, now) == written;
    }
  }

  lemma AwaitOutcome(s: State, q: Initiation, jti: Id, hash: string, sealed: Crypto.Bytes, now: Time)
    ensures var s', c, info := AwaitConfirmation(s, q, jti, hash, sealed, now).state, NewPhoneChallenge(q, now),
        AwaitingInfo(q, jti, hash, sealed, now);
      && c.id == q.challengeId && info.id == q.changeId && Req.ForNewPhone(c)
      && s' == if q.challengeId in s.challenges then s
               else if q.changeId in s.changes.rows then s.(challenges := AC.WithChallenge(s.challenges, c, now))
               else
                 s.(challenges := AC.WithChallenge(s.challenges, c, now),
                     changes := PC.WithChange(s.changes, info, PC.CooldownActive, now))
  {}

  lemma AwaitConfirmationKeepsInv(env: Env, s: State, q: Initiation, jti: Id, hash: string,
      sealed: Crypto.Bytes, now: Time)
    requires Inv(env, s, now) && MayChange(env, s, q, jti, hash, sealed, now)
    ensures Inv(env, AwaitConfirmation(s, q, jti, hash, sealed, now).state, now)
  {
    AwaitOutcome(s, q, jti, hash, sealed, now);
    if q.challengeId !in s.challenges {
      if q.changeId in s.changes.rows {
        ChallengeKeepsInv(env, s, NewPhoneChallenge(q, now), now);
      } else {
        AwaitKeepsInv(env, s, NewPhoneChallenge(q, now), AwaitingInfo(q, jti, hash, sealed, now), now);
      }
    }
  }

  lemma AuthorisedKeepsInv(env: Env, s: State, q: Initiation, jti: Id, now: Time)
    requires Crypto.Opens(env.crypto) && |q.iv| == Crypto.IV_LEN
    requires Inv(env, s, now) && Unused(s.changes, s.signings, jti) && AuthorisesChange(s.tokens, jti, q.uuid)
    ensures Inv(env, Authorised(env, s, q, jti, now).state, now)
  {
    AuthorisedOutcome(env, s, q, jti, now);
    if PassesGates(env, s, q, now) {
      var n := PhoneNormalise.Normalise(q.newPhone).value;
      var superseded := s.(changes := PC.WithExistingCancelled(s.changes, q.uuid, now));
      SupersedeKeepsInv(env, s, q.uuid, now);
      NormalisedSealsHash(env.crypto, q.newPhone, q.iv);
      if q.verificationMethod == PC.OtpToOldPhone {
        ChangeAtOnceKeepsInv(env, superseded, q, jti, env.crypto.hash(n), env.crypto.seal(q.iv, n), now);
      } else {
        AwaitConfirmationKeepsInv(env, superseded, q, jti, env.crypto.hash(n), env.crypto.seal(q.iv, n), now);
      }
    }
  }

  lemma InitiateKeepsInv(env: Env, s: State, q: Initiation, now: Time)
    requires Crypto.Opens(env.crypto) && |q.iv| == Crypto.IV_LEN &&
        (q.token.Some? ==> Presentable(env, s, q.token.value))
    requires Inv(env, s, now)
    ensures Inv(env, Initiate(env, s, q, now).state, now)
  {
    if q.token.Some? {
      var (spent, v) := WithStepupSpent(env, s, q, now);
      if v.Valid? {
        AcceptedTokensAreBacked(env, s, q, now);
        SpendKeepsInv(env, s, v.jti, now);
        AuthorisedKeepsInv(env, spent, q, v.jti, now);
      }
    }
  }

  /** The row under confirmation, and its challenge. */
  ghost predicate UnderConfirmation(s: State, change: PC.Change, cid: Id) {
    && change.info.id in s.changes.rows && s.changes.rows[change.info.id] == change
    && change.state == PC.CooldownActive && change.info.challengeNewId == Some(cid) && cid in s.challenges
  }

  lemma CompletedOutcome(s: State, i: PC.ChangeInfo, now: Time)
    ensures CompletedIfSwapped(s, i, now) ==
      match Cust.SwapOutcome(s.customers, i.accountId, i.newPhoneHash)
      case Done => SwappedState(s, PC.WithCompleted(s.changes, i.id, now), i.accountId,
        i.newPhoneHash, i.newPhoneEncrypted,
                                PC.OtpToNewPhoneWithStepUpToOld, i.authorisingStepupJti, now)
      case NotFound => s.(changes := PC.WithCancelled(s.changes, i.id, PC.PhoneRecordVanished, now))
      case _ => s
  {}

  lemma ConsumedKeepsInv(env: Env, s: State, change: PC.Change, cid: Id, now: Time)
    requires Inv(env, s, now) && UnderConfirmation(s, change, cid) && s.challenges[cid].status == AC.Consumed
    ensures Inv(env, CompletedIfSwapped(s, change.info, now), now)
  {
    CompletedOutcome(s, change.info, now);
    if Claimable(s.customers, change.info.accountId, change.info.newPhoneHash) {
      ConfirmedKeepsInv(env, s, change.info.id, now);
    } else {
      CancelKeepsInv(env, s, change.info.id, PC.PhoneRecordVanished, now);
    }
  }

  /** What `Answered` comes to, decision by decision. */
  lemma AnsweredOutcome(s: State, change: PC.Change, cid: Id, matches: bool, now: Time)
    requires cid in s.challenges
    ensures var d, c, i, s' := AC.ConfirmDecision(s.challenges[cid], matches, now), s.challenges[cid], change.info,
        Answered(s, change, cid, matches, now).state;
      match d
      case Refuse(_) =>
        s' == s.(changes := PC.WithCancelled(s.changes, i.id, if c.info.otpHash.None? then PC.ChallengeMissing
            else PC.ChallengeNotPending(c.status), now))
      case RecordAndRefuse(next, _) =>
        next.status in {AC.Pending, AC.Failed} && s' == AfterWrongAnswer(s, i.id, cid, next, now)
      case RecordAndProceed(next) =>
        next == AC.Success(now) && s.challenges[cid].status == AC.Pending
        && s' == CompletedIfSwapped(Consuming(s, cid, next, true), i, now)
  {}

  function CompletedIfSwapped(s: State, i: PC.ChangeInfo, now: Time): State {
    var r := Swapped(s, i.accountId, i.id, i.newPhoneHash, i.newPhoneEncrypted, PC.OtpToNewPhoneWithStepUpToOld,
        i.authorisingStepupJti, 200, now);
    if r.reply.Ok? then r.state.(changes := PC.WithCompleted(r.state.changes, i.id, now)) else r.state
  }

  function AfterWrongAnswer(s: State, id: Id, cid: Id, next: AC.AttemptUpdate, now: Time): State {
    var recorded := s.(challenges := AC.WithAttempt(s.challenges, cid, next));
    if next.status == AC.Failed then recorded.(changes := PC.WithCancelled(s.changes, id, PC.MaxOtpAttempts, now))
    else recorded
  }

  lemma WrongAnswerKeepsInv(env: Env, s: State, change: PC.Change, cid: Id, next: AC.AttemptUpdate, now: Time)
    requires Inv(env, s, now) && UnderConfirmation(s, change, cid) && next.status in {AC.Pending, AC.Failed}
    ensures Inv(env, AfterWrongAnswer(s, change.info.id, cid, next, now), now)
  {
    if next.status == AC.Failed {
      FailureKeepsInv(env, s, change.info.id, cid, next, PC.MaxOtpAttempts, now);
    } else {
      AttemptKeepsInv(env, s, cid, next, now);
    }
  }

  lemma RightAnswerKeepsInv(env: Env, s: State, change: PC.Change, cid: Id, now: Time)
    requires Inv(env, s, now) && UnderConfirmation(s, change, cid) && s.challenges[cid].status == AC.Pending
    ensures Inv(env, CompletedIfSwapped(Consuming(s, cid, AC.Success(now), true), change.info, now), now)
  {
    ConsumeKeepsInv(env, s, cid, now);
    ConsumedKeepsInv(env, Consuming(s, cid, AC.Success(now), true), change, cid, now);
  }

  /** A wrong answer, or a challenge that no longer takes answers. */
  lemma RefusedKeepsInv(env: Env, s: State, change: PC.Change, cid: Id, matches: bool, now: Time)
    requires Inv(env, s, now) && UnderConfirmation(s, change, cid) &&
        !AC.ConfirmDecision(s.challenges[cid], matches, now).RecordAndProceed?
    ensures Inv(env, Answered(s, change, cid, matches, now).state, now)
  {
    AnsweredOutcome(s, change, cid, matches, now);
    var c, d := s.challenges[cid], AC.ConfirmDecision(s.challenges[cid], matches, now);
    if d.RecordAndRefuse? {
      WrongAnswerKeepsInv(env, s, change, cid, d.next, now);
    } else {
      CancelKeepsInv(env, s, change.info.id, if c.info.otpHash.None? then PC.ChallengeMissing
          else PC.ChallengeNotPending(c.status), now);
    }
  }

  lemma AnsweredKeepsInv(env: Env, s: State, change: PC.Change, cid: Id, matches: bool, now: Time)
    requires Inv(env, s, now) && UnderConfirmation(s, change, cid)
    ensures Inv(env, Answered(s, change, cid, matches, now).state, now)
  {
    AnsweredOutcome(s, change, cid, matches, now);
    if AC.ConfirmDecision(s.challenges[cid], matches, now).RecordAndProceed? {
      RightAnswerKeepsInv(env, s, change, cid, now);
    } else {
      RefusedKeepsInv(env, s, change, cid, matches, now);
    }
  }

  /** A confirm either changes nothing, or cancels an overdue change, or puts the answer to the challenge. */
  lemma ConfirmOutcome(env: Env, s: State, uuid: Id, changeId: Id, matches: bool, now: Time)
    requires ChangeInv(s.challenges, s.changes, now)
    ensures var s' := Confirm(s, uuid, changeId, matches, now).state;
      if changeId !in s.changes.rows || s.changes.rows[changeId].info.accountId != uuid ||
          s.changes.rows[changeId].state != PC.CooldownActive then
        s' == s
      else if s.changes.rows[changeId].info.expiresAt <= now then
        s' == s.(changes := PC.WithCancelled(s.changes, changeId, PC.AwaitingConfirmationExpired, now))
      else
        var change := s.changes.rows[changeId];
        && change.info.challengeNewId.Some? && UnderConfirmation(s, change, change.info.challengeNewId.value)
        && var cid := change.info.challengeNewId.value; s' == Answered(s, change, cid, matches, now).state
  {
    if changeId in s.changes.rows {
      assert RowOk(s.challenges, s.changes.rows[changeId], now);
    }
  }

  lemma ConfirmKeepsInv(env: Env, s: State, uuid: Id, changeId: Id, matches: bool, now: Time)
    requires Inv(env, s, now)
    ensures Inv(env, Confirm(s, uuid, changeId, matches, now).state, now)
  {
    ConfirmOutcome(env, s, uuid, changeId, matches, now);
    if changeId in s.changes.rows && s.changes.rows[changeId].info.accountId == uuid &&
        s.changes.rows[changeId].state == PC.CooldownActive {
      var change := s.changes.rows[changeId];
      if change.info.expiresAt <= now {
        CancelKeepsInv(env, s, changeId, PC.AwaitingConfirmationExpired, now);
      } else {
        var cid := change.info.challengeNewId.value;
        AnsweredKeepsInv(env, s, change, cid, matches, now);
      }
    }
  }

  // Customers.

  lemma CreateCustomerKeepsInv(
      env: Env, s: State, phone: string, consented: bool, uuid: Id, appId: Id, assignmentId: Id,
      iv: Crypto.Bytes, now: Time)
    requires Crypto.Opens(env.crypto) && |iv| == Crypto.IV_LEN && Inv(env, s, now)
    ensures Inv(env, CreateCustomer(env, s, phone, consented, uuid, appId, assignmentId, iv, now).state, now)
  {
    var normalised := PhoneNormalise.Normalise(phone);
    if normalised.Some? && Cust.CreateOutcome(s.customers, uuid, env.crypto.hash(normalised.value),
        assignmentId) == Cust.Done {
      NormalisedSealsHash(env.crypto, phone, iv);
      CreateKeepsInv(env, s, uuid, env.crypto.hash(normalised.value), env.crypto.seal(iv, normalised.value),
          appId, assignmentId, now);
    }
  }

  lemma ChangeStateKeepsInv(env: Env, s: State, k: TransitionKind, uuid: Id, now: Time)
    requires Inv(env, s, now)
    ensures Inv(env, ChangeState(s, k, uuid).state, now)
  {
    if Cust.ChangeStateOutcome(s.customers, uuid, FromStates(k)) == Cust.Done {
      TransitionKeepsInv(env, s, k, uuid, now);
    }
  }

  lemma AssignTierKeepsInv(env: Env, s: State, uuid: Id, tier: Cust.Tier, reason: string, assignmentId: Id,
      status: nat, now: Time)
    requires Inv(env, s, now)
    ensures Inv(env, AssignTier(s, uuid, tier, reason, assignmentId, status, now).state, now)
  {
    if Cust.SetTierOutcome(s.customers, uuid, assignmentId) == Cust.Done {
      TierKeepsInv(env, s, uuid, tier, reason, assignmentId, now);
    }
  }

  lemma IprsKeepsInv(env: Env, s: State, uuid: Id, refusal: Option<Reply>, assignmentId: Id, now: Time)
    requires Inv(env, s, now)
    ensures Inv(env, IprsLookup(s, uuid, refusal, assignmentId, now).state, now)
  {
    AssignTierKeepsInv(env, s, uuid, Cust.Tier1, IPRS_VERIFIED, assignmentId, 201, now);
  }

  lemma ApproveKeepsInv(env: Env, s: State, uuid: Id, recordTier: Cust.Tier, refusal: Option<Reply>,
      assignmentId: Id, now: Time)
    requires Inv(env, s, now)
    ensures Inv(env, ApproveKyc(s, uuid, recordTier, refusal, assignmentId, now).state, now)
  {
    AssignTierKeepsInv(env, s, uuid, Cust.Tier1, TIER_1_KYC_COMPLETE, assignmentId, 200, now);
  }

  lemma {:induction false} ServeKeepsInv(env: Env, s: State, r: Request, now: Time)
    requires Crypto.Opens(env.crypto) && Inv(env, s, now) && Admissible(env, s, r)
    ensures Inv(env, Serve(env, s, r, now).state, now)
  {
    match r
    case ReqStepupChallenge(q, operatorRefusal, id, appId, secret) =>
      StepupChallengeKeepsInv(env, s, q, operatorRefusal, id, appId, secret, now);
    case ReqAuthChallenge(phone, factor, purpose, id, appId, secret) =>
      AuthChallengeKeepsInv(env, s, phone, factor, purpose, id, appId, secret, now);
    case ReqStepupVerify(id, response) => VerifyKeepsInv(env, s, id, response, now);
    case ReqValidate(_, _) =>
    case ReqCustomerToken(id, response, jti, audience) => LoginKeepsInv(env, s, id, response, jti, audience, now);
    case ReqAudienceToken(uuid, audience, ttlSeconds, jti) =>
      AudienceKeepsInv(env, s, uuid, audience, ttlSeconds, jti, now);
    case ReqSign(appId, kid, claims) => SignKeepsInv(env, s, appId, kid, claims, now);
    case ReqInitiate(q) => InitiateKeepsInv(env, s, q, now);
    case ReqConfirm(uuid, changeId, matches) => ConfirmKeepsInv(env, s, uuid, changeId, matches, now);
    case ReqCreate(phone, consented, uuid, appId, assignmentId, iv) =>
      CreateCustomerKeepsInv(env, s, phone, consented, uuid, appId, assignmentId, iv, now);
    case ReqChangeState(kind, uuid) => ChangeStateKeepsInv(env, s, kind, uuid, now);
    case ReqIprs(uuid, refusal, assignmentId) => IprsKeepsInv(env, s, uuid, refusal, assignmentId, now);
    case ReqApprove(uuid, recordTier, refusal, assignmentId) =>
      ApproveKeepsInv(env, s, uuid, recordTier, refusal, assignmentId, now);
    case ReqTierOverride(uuid, tier, reason, assignmentId) =>
      AssignTierKeepsInv(env, s, uuid, tier, reason, assignmentId, 200, now);
  }
}
