/**
 * What no request ever undoes: terminal challenges and changes stay as they are, spent
 * tokens stay spent, ledgers and topics only grow, and the chain of PHONE_CHANGED events
 * of every account keeps its beginning.
 */
module RailHistory {
  import opened Domain
  import opened Rail
  import opened RailAuthority
  import opened RailRecords
  import AC = AuthChallenges
  import SU = StepUpTokens
  import PC = PhoneChanges
  import Cust = Customers
  import Crypto = PhoneCrypto
  import DA = DelegatedAuthority
  import PhoneNormalise
  import RailInvariants
  import RailServe
  import Jwt
  import Req = StepupRequests

  /** Consumed, expired and failed are absorbing; the count of attempts never shrinks. */
  ghost predicate ChallengesAdvance(h: AC.Challenges, h': AC.Challenges) {
    forall id :: id in h ==>
      && id in h' && h'[id].info == h[id].info && h[id].attemptsUsed <= h'[id].attemptsUsed
      && (h[id].status != AC.Pending ==> h'[id] == h[id])
  }

  ghost predicate TokensAdvance(t: SU.Tokens, t': SU.Tokens) {
    forall j :: j in t ==> j in t' && t'[j].info == t[j].info && (t[j].consumedAt.Some? ==> t'[j] == t[j])
  }

  /** Completed and cancelled are absorbing, and a row keeps what it was created with. */
  ghost predicate ChangesAdvance(p: PC.Table, p': PC.Table) {
    forall id :: id in p.rows ==>
      && id in p'.rows && p'.rows[id].info == p.rows[id].info && p'.rows[id].initiatedAt == p.rows[id].initiatedAt
      && (!PC.IsActiveState(p.rows[id].state) ==> p'.rows[id] == p.rows[id])
  }

  ghost predicate SigningsAdvance(g: SU.Signings, g': SU.Signings) {
    forall j :: j in g ==> j in g' && g'[j] == g[j]
  }

  /** The hash an account was created with, as far as its events tell. */
  function Origin(s: State, uuid: Id): Option<string>
    requires uuid in s.customers.accounts
  {
    Rewind(s.phoneEvents, uuid, s.customers.accounts[uuid].phoneHash)
  }

  ghost predicate OriginsKept(s: State, s': State) {
    forall u :: u in s.customers.accounts ==> u in s'.customers.accounts && Origin(s', u) == Origin(s, u)
  }

  ghost predicate Advances(s: State, s': State) {
    && ChallengesAdvance(s.challenges, s'.challenges)
    && TokensAdvance(s.tokens, s'.tokens)
    && ChangesAdvance(s.changes, s'.changes)
    && SigningsAdvance(s.signings, s'.signings)
    && OriginsKept(s, s')
    && s.accountEvents <= s'.accountEvents && s.phoneEvents <= s'.phoneEvents
    && s.issued <= s'.issued && s.answered <= s'.answered
  }

  lemma AdvancesTransitive(a: State, b: State, c: State)
    requires Advances(a, b) && Advances(b, c)
    ensures Advances(a, c)
  {}

  lemma AdvancesReflexive(s: State)
    ensures Advances(s, s)
  {}

  /** A token handed out. */
  lemma IssuingAdvances(s: State, s': State)
    requires s' == s.(issued := s'.issued) && s.issued <= s'.issued
    ensures Advances(s, s')
  {}

  /** A challenge created. */
  lemma CreatingAdvances(s: State, s': State, info: AC.ChallengeInfo, now: Time)
    requires s' == s || s' == s.(challenges := AC.WithChallenge(s.challenges, info, now))
    ensures Advances(s, s')
  {}

  /** Everything but customers and phone events. */
  lemma StoresAdvance(s: State, s': State)
    requires s' == s.(challenges := s'.challenges, tokens := s'.tokens, changes := s'.changes, signings := s'.signings,
                      issued := s'.issued, answered := s'.answered)
    requires ChallengesAdvance(s.challenges, s'.challenges) && TokensAdvance(s.tokens, s'.tokens)
    requires ChangesAdvance(s.changes, s'.changes) && SigningsAdvance(s.signings, s'.signings)
    requires s.issued <= s'.issued && s.answered <= s'.answered
    ensures Advances(s, s')
  {}

  lemma AttemptAdvances(h: AC.Challenges, cid: Id, next: AC.AttemptUpdate)
    ensures ChallengesAdvance(h, AC.WithAttempt(h, cid, next))
  {}

  lemma RecordingAdvances(s: State, cid: Id, next: AC.AttemptUpdate)
    ensures Advances(s, s.(challenges := AC.WithAttempt(s.challenges, cid, next)))
  {
    AttemptAdvances(s.challenges, cid, next);
    StoresAdvance(s, s.(challenges := AC.WithAttempt(s.challenges, cid, next)));
  }

  lemma ConsumingAdvances(s: State, cid: Id, next: AC.AttemptUpdate, correct: bool)
    ensures Advances(s, Consuming(s, cid, next, correct))
  {
    AttemptAdvances(s.challenges, cid, next);
    StoresAdvance(s, Consuming(s, cid, next, correct));
  }

  lemma CancelAdvances(p: PC.Table, id: Id, reason: PC.CancelReason, now: Time)
    ensures ChangesAdvance(p, PC.WithCancelled(p, id, reason, now))
  {}

  lemma CompleteAdvances(p: PC.Table, id: Id, now: Time)
    ensures ChangesAdvance(p, PC.WithCompleted(p, id, now))
  {}

  lemma CreateAdvances(p: PC.Table, info: PC.ChangeInfo, state: PC.ChangeState, now: Time)
    ensures ChangesAdvance(p, PC.WithChange(p, info, state, now))
  {}

  lemma SupersedeAdvances(s: State, accountId: Id, now: Time)
    ensures Advances(s, s.(changes := PC.WithExistingCancelled(s.changes, accountId, now)))
  {
    var existing := PC.FindActive(s.changes, accountId);
    if existing.Some? {
      CancelAdvances(s.changes, existing.value, PC.SupersededByNewInitiate, now);
    }
    StoresAdvance(s, s.(changes := PC.WithExistingCancelled(s.changes, accountId, now)));
  }

  lemma SwappedAdvances(s: State, uuid: Id, changeId: Id, newHash: string, sealed: Crypto.Bytes, m: PC.Method, jti: Id,
      status: nat, now: Time)
    ensures Advances(s, Swapped(s, uuid, changeId, newHash, sealed, m, jti, status, now).state)
  {
    var s' := Swapped(s, uuid, changeId, newHash, sealed, m, jti, status, now).state;
    if Cust.SwapOutcome(s.customers, uuid, newHash) == Cust.Done {
      var accounts := s.customers.accounts;
      var e := PhoneChanged(uuid, accounts[uuid].phoneHash, newHash, now, m, jti);
      var a := s'.customers.accounts[uuid];
      assert s'.customers.accounts == accounts[uuid := a];
      forall u | u in accounts ensures Origin(s', u) == Origin(s, u) {
        SwapKeepsOrigins(accounts, s.phoneEvents, e, a, u);
      }
    } else {
      CancelAdvances(s.changes, changeId, PC.PhoneRecordVanished, now);
      StoresAdvance(s, s');
    }
  }

  lemma ChangeAtOnceAdvances(s: State, q: Initiation, jti: Id, newHash: string, sealed: Crypto.Bytes, now: Time)
    ensures Advances(s, ChangeAtOnce(s, q, jti, newHash, sealed, now).state)
  {
    if q.changeId !in s.changes.rows {
      var info := AtOnceInfo(q, jti, newHash, sealed, now);
      var written := PC.WithChange(s.changes, info, PC.Completed, now);
      CreateAdvances(s.changes, info, PC.Completed, now);
      assert PC.WithCompleted(written, q.changeId, now) == written;
      var r := s.(changes := written);
      StoresAdvance(s, r);
      SwappedAdvances(r, q.uuid, q.changeId, newHash, sealed, PC.OtpToOldPhone, jti, 201, now);
      AdvancesTransitive(s, r, Swapped(r, q.uuid, q.changeId, newHash, sealed, PC.OtpToOldPhone, jti, 201, now).state);
    }
  }

  lemma AwaitConfirmationAdvances(s: State, q: Initiation, jti: Id, newHash: string, sealed: Crypto.Bytes, now: Time)
    ensures Advances(s, AwaitConfirmation(s, q, jti, newHash, sealed, now).state)
  {
    CreateAdvances(s.changes, AwaitingInfo(q, jti, newHash, sealed, now), PC.CooldownActive, now);
    StoresAdvance(s, AwaitConfirmation(s, q, jti, newHash, sealed, now).state);
  }

  lemma AuthorisedAdvances(env: Env, s: State, q: Initiation, jti: Id, now: Time)
    ensures Advances(s, Authorised(env, s, q, jti, now).state)
  {
    RailServe.AuthorisedOutcome(env, s, q, jti, now);
    if RailServe.PassesGates(env, s, q, now) {
      var n := PhoneNormalise.Normalise(q.newPhone).value;
      var superseded := s.(changes := PC.WithExistingCancelled(s.changes, q.uuid, now));
      SupersedeAdvances(s, q.uuid, now);
      ChangeAtOnceAdvances(superseded, q, jti, env.crypto.hash(n), env.crypto.seal(q.iv, n), now);
      AwaitConfirmationAdvances(superseded, q, jti, env.crypto.hash(n), env.crypto.seal(q.iv, n), now);
      AdvancesTransitive(s, superseded, Authorised(env, s, q, jti, now).state);
    }
  }

  lemma SpendingAdvances(env: Env, s: State, q: Initiation, now: Time)
    requires q.token.Some?
    ensures Advances(s, WithStepupSpent(env, s, q, now).0)
    ensures !WithStepupSpent(env, s, q, now).1.Valid? ==> WithStepupSpent(env, s, q, now).0 == s
  {
    StoresAdvance(s, WithStepupSpent(env, s, q, now).0);
  }

  lemma InitiateAdvances(env: Env, s: State, q: Initiation, now: Time)
    ensures Advances(s, Initiate(env, s, q, now).state)
  {
    if q.token.Some? {
      var (spent, v) := WithStepupSpent(env, s, q, now);
      SpendingAdvances(env, s, q, now);
      if v.Valid? {
        AuthorisedAdvances(env, spent, q, v.jti, now);
        AdvancesTransitive(s, spent, Authorised(env, spent, q, v.jti, now).state);
      }
    }
  }

  lemma RefusedAdvances(s: State, change: PC.Change, cid: Id, matches: bool, now: Time)
    requires cid in s.challenges && !AC.ConfirmDecision(s.challenges[cid], matches, now).RecordAndProceed?
    ensures Advances(s, Answered(s, change, cid, matches, now).state)
  {
    RailServe.AnsweredOutcome(s, change, cid, matches, now);
    var c, d, id := s.challenges[cid], AC.ConfirmDecision(s.challenges[cid], matches, now), change.info.id;
    if d.Refuse? {
      CancelAdvances(s.changes, id, if c.info.otpHash.None? then PC.ChallengeMissing
          else PC.ChallengeNotPending(c.status), now);
    } else {
      CancelAdvances(s.changes, id, PC.MaxOtpAttempts, now);
      AttemptAdvances(s.challenges, cid, d.next);
    }
    StoresAdvance(s, Answered(s, change, cid, matches, now).state);
  }

  lemma AnsweredAdvances(s: State, change: PC.Change, cid: Id, matches: bool, now: Time)
    requires cid in s.challenges
    ensures Advances(s, Answered(s, change, cid, matches, now).state)
  {
    var i := change.info;
    var d := AC.ConfirmDecision(s.challenges[cid], matches, now);
    if d.RecordAndProceed? {
      var recorded := Consuming(s, cid, d.next, matches);
      ConsumingAdvances(s, cid, d.next, matches);
      var r := Swapped(recorded, i.accountId, i.id, i.newPhoneHash, i.newPhoneEncrypted,
          PC.OtpToNewPhoneWithStepUpToOld, i.authorisingStepupJti, 200, now).state;
      SwappedAdvances(recorded, i.accountId, i.id, i.newPhoneHash, i.newPhoneEncrypted, PC.OtpToNewPhoneWithStepUpToOld,
          i.authorisingStepupJti, 200, now);
      AdvancesTransitive(s, recorded, r);
      CompleteAdvances(r.changes, i.id, now);
      StoresAdvance(r, r.(changes := PC.WithCompleted(r.changes, i.id, now)));
      AdvancesTransitive(s, r, r.(changes := PC.WithCompleted(r.changes, i.id, now)));
    } else {
      RefusedAdvances(s, change, cid, matches, now);
    }
  }

  /** Confirm changes nothing, or cancels the change, or puts the answer to its challenge. */
  lemma ConfirmCases(s: State, uuid: Id, changeId: Id, matches: bool, now: Time) returns (reason: PC.CancelReason)
    ensures var s' := Confirm(s, uuid, changeId, matches, now).state;
      || s' == s
      || s' == s.(changes := PC.WithCancelled(s.changes, changeId, reason, now))
      || (changeId in s.changes.rows && var change := s.changes.rows[changeId];
          && change.info.challengeNewId.Some? && change.info.challengeNewId.value in s.challenges
          && var cid := change.info.challengeNewId.value; s' == Answered(s, change, cid, matches, now).state)
  {
    reason := PC.ChallengeMissing;
    if changeId in s.changes.rows && s.changes.rows[changeId].info.expiresAt <= now {
      reason := PC.AwaitingConfirmationExpired;
    }
  }

  lemma ConfirmAdvances(s: State, uuid: Id, changeId: Id, matches: bool, now: Time)
    ensures Advances(s, Confirm(s, uuid, changeId, matches, now).state)
  {
    var s' := Confirm(s, uuid, changeId, matches, now).state;
    var reason := ConfirmCases(s, uuid, changeId, matches, now);
    CancelAdvances(s.changes, changeId, reason, now);
    if s' == s || s' == s.(changes := PC.WithCancelled(s.changes, changeId, reason, now)) {
      StoresAdvance(s, s');
    } else {
      var change := s.changes.rows[changeId];
      var cid := change.info.challengeNewId.value;
      AnsweredAdvances(s, change, cid, matches, now);
    }
  }

  lemma SignAndRecordAdvances(env: Env, s: State, kid: string, claims: DA.ClaimSet, now: Time)
    ensures Advances(s, SignAndRecord(env, s, kid, claims, now).state)
  {
    var s' := SignAndRecord(env, s, kid, claims, now).state;
    if s' == s {
      AdvancesReflexive(s);
    } else {
      assert SigningsAdvance(s.signings, s'.signings);
      StoresAdvance(s, s');
    }
  }

  lemma SpendAndSignAdvances(env: Env, s: State, kid: string, claims: DA.ClaimSet, jti: Id, now: Time)
    ensures Advances(s, SignAndRecord(env, s.(tokens := SU.WithConsumed(s.tokens, jti, now)), kid, claims, now).state)
  {
    var spent := s.(tokens := SU.WithConsumed(s.tokens, jti, now));
    StoresAdvance(s, spent);
    SignAndRecordAdvances(env, spent, kid, claims, now);
    AdvancesTransitive(s, spent, SignAndRecord(env, spent, kid, claims, now).state);
  }

  lemma SignAdvances(env: Env, s: State, appId: Id, kid: string, claims: DA.ClaimSet, now: Time)
    ensures Advances(s, InternalSign(env, s, appId, kid, claims, now).state)
  {
    AdvancesReflexive(s);
    if claims.stepUpJti.None? {
      SignAndRecordAdvances(env, s, kid, claims, now);
    } else {
      SpendAndSignAdvances(env, s, kid, claims, claims.stepUpJti.value, now);
    }
  }

  lemma MintAdvances(env: Env, s: State, id: Id, now: Time)
    requires id in s.challenges && Req.BoundToOperation(s.challenges[id].info)
    ensures Advances(s, RailInvariants.MintedState(env, s, id, now))
  {
    AttemptAdvances(s.challenges, id, AC.Success(now));
    StoresAdvance(s, RailInvariants.MintedState(env, s, id, now));
  }

  lemma VerifyAdvances(env: Env, s: State, id: Id, response: AC.FactorResponse, now: Time)
    requires ChallengesOk(s.challenges)
    ensures Advances(s, AnswerStepup(env, s, id, response, now).state)
  {
    RailServe.VerifyOutcome(env, s, id, response, now);
    match AC.StepupDecision(Lookup(s.challenges, id), response, now)
    case Refuse(_) => AdvancesReflexive(s);
    case RecordAndRefuse(next, _) => RecordingAdvances(s, id, next);
    case RecordAndProceed(next) =>
      if id in s.tokens {
        ConsumingAdvances(s, id, next, Accepted(response));
      } else {
        MintAdvances(env, s, id, now);
      }
  }

  lemma LoginAdvances(env: Env, s: State, id: Id, response: AC.FactorResponse, jti: Id, audience: string, now: Time)
    ensures Advances(s, CustomerToken(env, s, id, response, jti, audience, now).state)
  {
    var t := RailServe.LoginOutcome(env, s, id, response, jti, audience, now);
    match AC.LoginDecision(Lookup(s.challenges, id), response, now)
    case Refuse(_) => AdvancesReflexive(s);
    case RecordAndRefuse(next, _) => RecordingAdvances(s, id, next);
    case RecordAndProceed(_) =>
      var recorded := Consuming(s, id, AC.Success(now), true);
      ConsumingAdvances(s, id, AC.Success(now), true);
      IssuingAdvances(recorded, recorded.(issued := recorded.issued + {t}));
      AdvancesTransitive(s, recorded, recorded.(issued := recorded.issued + {t}));
  }

  lemma StepupChallengeAdvances(s: State, q: Req.StepupRequest, operatorRefusal: Option<Reply>, id: Id, appId: Id,
      secret: string, now: Time)
    ensures Advances(s, CreateStepupChallenge(s, q, operatorRefusal, id, appId, secret, now).state)
  {
    CreatingAdvances(s, CreateStepupChallenge(s, q, operatorRefusal, id, appId, secret, now).state,
                     Req.StepupInfo(q, id, appId, secret, now), now);
  }

  lemma AuthChallengeAdvances(env: Env, s: State, phone: string, factor: AC.Factor, purpose: AC.Purpose, id: Id,
      appId: Id, secret: string, now: Time)
    ensures Advances(s, CreateAuthChallenge(env, s, phone, factor, purpose, id, appId, secret, now).state)
  {
    var s' := CreateAuthChallenge(env, s, phone, factor, purpose, id, appId, secret, now).state;
    var accountId: Id := 0;
    if s' != s {
      accountId := s.customers.phoneHashes[env.crypto.hash(PhoneNormalise.Normalise(phone).value)];
    }
    CreatingAdvances(s, s', LoginInfo(accountId, purpose, id, appId, secret, now), now);
  }

  lemma AudienceAdvances(env: Env, s: State, uuid: Id, audience: string, ttlSeconds: Option<int>, jti: Id, now: Time)
    ensures Advances(s, AudienceToken(env, s, uuid, audience, ttlSeconds, jti, now).state)
  {
    IssuingAdvances(s, AudienceToken(env, s, uuid, audience, ttlSeconds, jti, now).state);
  }

  /** Writes of the customer store that keep the numbers of the accounts there are. */
  lemma CustomersAdvance(s: State, s': State)
    requires s' == s.(customers := s'.customers, accountEvents := s'.accountEvents) &&
        s.accountEvents <= s'.accountEvents
    requires forall u :: u in s.customers.accounts ==>
      u in s'.customers.accounts && s'.customers.accounts[u].phoneHash == s.customers.accounts[u].phoneHash
    ensures Advances(s, s')
  {}

  lemma CreateAccountAdvances(
      env: Env, s: State, phone: string, consented: bool, uuid: Id, appId: Id, assignmentId: Id,
      iv: Crypto.Bytes, now: Time)
    ensures Advances(s, CreateCustomer(env, s, phone, consented, uuid, appId, assignmentId, iv, now).state)
  {
    var s' := CreateCustomer(env, s, phone, consented, uuid, appId, assignmentId, iv, now).state;
    if s' == s {
      AdvancesReflexive(s);
    } else {
      CustomersAdvance(s, s');
    }
  }

  lemma ChangeStateAdvances(s: State, k: TransitionKind, uuid: Id)
    ensures Advances(s, ChangeState(s, k, uuid).state)
  {
    CustomersAdvance(s, ChangeState(s, k, uuid).state);
  }

  lemma AssignTierAdvances(s: State, uuid: Id, tier: Cust.Tier, reason: string, assignmentId: Id,
      status: nat, now: Time)
    ensures Advances(s, AssignTier(s, uuid, tier, reason, assignmentId, status, now).state)
  {
    CustomersAdvance(s, AssignTier(s, uuid, tier, reason, assignmentId, status, now).state);
  }

  predicate IsCustomerRequest(r: Request) {
    r.ReqCreate? || r.ReqChangeState? || r.ReqIprs? || r.ReqApprove? || r.ReqTierOverride?
  }

  lemma IprsAdvances(s: State, uuid: Id, refusal: Option<Reply>, assignmentId: Id, now: Time)
    ensures Advances(s, IprsLookup(s, uuid, refusal, assignmentId, now).state)
  {
    AdvancesReflexive(s);
    AssignTierAdvances(s, uuid, Cust.Tier1, IPRS_VERIFIED, assignmentId, 201, now);
  }

  lemma ApproveAdvances(s: State, uuid: Id, recordTier: Cust.Tier, refusal: Option<Reply>, assignmentId: Id, now: Time)
    ensures Advances(s, ApproveKyc(s, uuid, recordTier, refusal, assignmentId, now).state)
  {
    AdvancesReflexive(s);
    AssignTierAdvances(s, uuid, Cust.Tier1, TIER_1_KYC_COMPLETE, assignmentId, 200, now);
  }

  lemma CustomerRequestAdvances(env: Env, s: State, r: Request, now: Time)
    requires IsCustomerRequest(r)
    ensures Advances(s, Serve(env, s, r, now).state)
  {
    match r
    case ReqCreate(phone, consented, uuid, appId, assignmentId, iv) =>
      CreateAccountAdvances(env, s, phone, consented, uuid, appId, assignmentId, iv, now);
    case ReqChangeState(kind, uuid) => ChangeStateAdvances(s, kind, uuid);
    case ReqIprs(uuid, refusal, assignmentId) => IprsAdvances(s, uuid, refusal, assignmentId, now);
    case ReqApprove(uuid, recordTier, refusal, assignmentId) =>
      ApproveAdvances(s, uuid, recordTier, refusal, assignmentId, now);
    case ReqTierOverride(uuid, tier, reason, assignmentId) =>
      AssignTierAdvances(s, uuid, tier, reason, assignmentId, 200, now);
  }

  lemma AuthorityRequestAdvances(env: Env, s: State, r: Request, now: Time)
    requires !IsCustomerRequest(r) && ChallengesOk(s.challenges)
    ensures Advances(s, Serve(env, s, r, now).state)
  {
    match r
    case ReqStepupChallenge(q, operatorRefusal, id, appId, secret) =>
      StepupChallengeAdvances(s, q, operatorRefusal, id, appId, secret, now);
    case ReqAuthChallenge(phone, factor, purpose, id, appId, secret) =>
      AuthChallengeAdvances(env, s, phone, factor, purpose, id, appId, secret, now);
    case ReqStepupVerify(id, response) => VerifyAdvances(env, s, id, response, now);
    case ReqValidate(_, _) => AdvancesReflexive(s);
    case ReqCustomerToken(id, response, jti, audience) => LoginAdvances(env, s, id, response, jti, audience, now);
    case ReqAudienceToken(uuid, audience, ttlSeconds, jti) =>
      AudienceAdvances(env, s, uuid, audience, ttlSeconds, jti, now);
    case ReqSign(appId, kid, claims) => SignAdvances(env, s, appId, kid, claims, now);
    case ReqInitiate(q) => InitiateAdvances(env, s, q, now);
    case ReqConfirm(uuid, changeId, matches) => ConfirmAdvances(s, uuid, changeId, matches, now);
  }

  lemma {:induction false} ServeAdvances(env: Env, s: State, r: Request, now: Time)
    requires ChallengesOk(s.challenges)
    ensures Advances(s, Serve(env, s, r, now).state)
  {
    if IsCustomerRequest(r) {
      CustomerRequestAdvances(env, s, r, now);
    } else {
      AuthorityRequestAdvances(env, s, r, now);
    }
  }
}
