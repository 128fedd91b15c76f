/**
 * Exactly when the main operations succeed, in terms a caller can check beforehand, and what a
 * refusal leaves alone.
 */
module RailOutcomes {
  import opened Domain
  import opened Jwt
  import opened Rail
  import opened RailAuthority
  import AC = AuthChallenges
  import SU = StepUpTokens
  import PC = PhoneChanges
  import Cust = Customers
  import DA = DelegatedAuthority
  import SV = StepupVerifier
  import Req = StepupRequests
  import PhoneNormalise
  import PhoneCooldown
  import RailServe
  import RailTheorems
  import RailPhoneChanges
  import RailInvariants

  /** A token the verifier accepts for a phone change of account `uuid`. */
  predicate Genuine(env: Env, t: Token, uuid: Id, now: Time) {
    && SV.SignedByOneOf(env.verifierKeys, t)
    && t.claims.iss == env.issuer && "https://api.id.identiti.co.ke" in t.claims.aud
    && t.claims.sub == Some(uuid) && t.claims.operationKind == Some("identiti.phone_change") && t.claims.jti.Some?
    && t.claims.exp > Seconds(now) && (t.claims.nbf.Some? ==> t.claims.nbf.value <= Seconds(now))
  }

  /** The number asked for is well formed, new to the account, and not bound to another one. */
  predicate Available(env: Env, s: State, uuid: Id, phone: string)
    requires uuid in s.customers.accounts
  {
    var n := PhoneNormalise.Normalise(phone);
    n.Some? && env.crypto.hash(n.value) != s.customers.accounts[uuid].phoneHash &&
        !RailTheorems.HeldByAnother(s, uuid, env.crypto.hash(n.value))
  }

  predicate FreshIds(s: State, q: Initiation) {
    q.changeId !in s.changes.rows &&
        (q.verificationMethod == PC.OtpToNewPhoneWithStepUpToOld ==> q.challengeId !in s.challenges)
  }

  lemma GatesAreAvailability(env: Env, s: State, q: Initiation, now: Time)
    requires Cust.IndexAgrees(s.customers)
    ensures RailServe.PassesGates(env, s, q, now) <==>
      && q.uuid in s.customers.accounts && !PhoneCooldown.IsInCooldown(s.customers.accounts[q.uuid].cooldownUntil, now)
      && Available(env, s, q.uuid, q.newPhone)
  {
    var n := PhoneNormalise.Normalise(q.newPhone);
    if q.uuid in s.customers.accounts && n.Some? {
      RailTheorems.HeldByAnotherIsTaken(s.customers, q.uuid, env.crypto.hash(n.value));
    }
  }

  lemma TokenIsAccepted(env: Env, s: State, q: Initiation, now: Time)
    requires q.token.Some?
    ensures var (spent, v) := WithStepupSpent(env, s, q, now);
      && (v.Valid? <==>
          Genuine(env, q.token.value, q.uuid, now) && SU.Unspent(s.tokens, q.token.value.claims.jti.value))
      && (v.Valid? ==>
          v.jti == q.token.value.claims.jti.value && SU.Spent(spent.tokens, v.jti) &&
          spent == s.(tokens := SU.WithConsumed(s.tokens, v.jti, now)))
  {
    SV.AcceptedExactlyWhen(env.verifierKeys, env.issuer, q.token.value,
                           SV.Expectation(IDENTITI_AUDIENCE, q.uuid, PHONE_CHANGE_OPERATION_KIND), now);
  }

  /** The reply of the gates and of the two methods. */
  lemma AuthorisedReply(env: Env, s: State, q: Initiation, jti: Id, now: Time)
    ensures Authorised(env, s, q, jti, now).reply.Ok? <==> RailServe.PassesGates(env, s, q, now) && FreshIds(s, q)
    ensures Authorised(env, s, q, jti, now).reply.Ok? ==> Authorised(env, s, q, jti, now).reply == Ok(201)
  {
    SupersedingKeepsKeys(s.changes, q.uuid, now);
  }

  lemma SupersedingKeepsKeys(p: PC.Table, accountId: Id, now: Time)
    ensures PC.WithExistingCancelled(p, accountId, now).rows.Keys == p.rows.Keys
  {}

  /**
   * An initiate succeeds exactly when the caller presents a genuine, unspent token for this
   * account and operation, the cooldown is over and the number is available (and the
   * identifiers drawn are new). The token is spent by every request that gets past it.
   */
  lemma InitiateSucceedsExactlyWhen(env: Env, s: State, q: Initiation, now: Time)
    requires Cust.IndexAgrees(s.customers)
    ensures var r := Initiate(env, s, q, now);
      && (r.reply.Ok? <==>
          && q.token.Some? && Genuine(env, q.token.value, q.uuid, now)
          && SU.Unspent(s.tokens, q.token.value.claims.jti.value)
          && q.uuid in s.customers.accounts
          && !PhoneCooldown.IsInCooldown(s.customers.accounts[q.uuid].cooldownUntil, now)
          && Available(env, s, q.uuid, q.newPhone) && FreshIds(s, q))
      && (r.reply.Ok? ==> r.reply == Ok(201) && SU.Spent(r.state.tokens, q.token.value.claims.jti.value))
  {
    if q.token.Some? {
      TokenIsAccepted(env, s, q, now);
      var (spent, v) := WithStepupSpent(env, s, q, now);
      if v.Valid? {
        AuthorisedReply(env, spent, q, v.jti, now);
        GatesAreAvailability(env, spent, q, now);
        AuthorisedTouchesNoAuthority(env, spent, q, v.jti, now);
      }
    }
  }

  /**
   * The one-phone change a successful initiate leaves: the number bound, a day of cooldown, one
   * event with both hashes.
   */
  ghost predicate BoundAtOnce(env: Env, s: State, s': State, q: Initiation, jti: Id, now: Time) {
    var n := PhoneNormalise.Normalise(q.newPhone);
    && n.Some? && q.uuid in s.customers.accounts && q.uuid in s'.customers.accounts && q.changeId in s'.changes.rows
    && var a, a', row := s.customers.accounts[q.uuid], s'.customers.accounts[q.uuid], s'.changes.rows[q.changeId];
    && a'.phoneHash == env.crypto.hash(n.value) && a'.phoneEncrypted == env.crypto.seal(q.iv, n.value)
    && a'.cooldownUntil == Some(now + 24 * 60 * 60 * 1000) && a'.state == a.state && a'.tier == a.tier
    && s'.phoneEvents == s.phoneEvents + [PhoneChanged(q.uuid, a.phoneHash, a'.phoneHash, now, PC.OtpToOldPhone, jti)]
    && s'.challenges == s.challenges
    && row.state == PC.Completed && row.completedAt.None?
    && row.info.accountId == q.uuid && row.info.authorisingStepupJti == jti
    && row.info.newPhoneHash == a'.phoneHash && row.info.newPhoneEncrypted == a'.phoneEncrypted
  }

  /** The two-phone change it leaves: the number untouched, a challenge and an active change with one deadline. */
  ghost predicate AwaitsNewPhone(env: Env, s: State, s': State, q: Initiation, jti: Id, now: Time) {
    var n := PhoneNormalise.Normalise(q.newPhone);
    && n.Some? && s'.customers == s.customers && s'.phoneEvents == s.phoneEvents
    && q.changeId in s'.changes.rows && q.challengeId in s'.challenges
    && var row, c := s'.changes.rows[q.changeId], s'.challenges[q.challengeId];
    && s'.challenges == s.challenges[q.challengeId := c]
    && row.state == PC.CooldownActive && row.info.challengeNewId == Some(q.challengeId)
    && row.info.accountId == q.uuid && row.info.authorisingStepupJti == jti
    && row.info.newPhoneHash == env.crypto.hash(n.value) && row.info.newPhoneEncrypted == env.crypto.seal(q.iv, n.value)
    && c.status == AC.Pending && c.attemptsUsed == 0 && c.info.purpose == AC.PhoneChangeToNew
    && c.info.accountId == Some(q.uuid) && c.info.otpHash == Some(q.secret)
    && row.info.expiresAt == c.info.expiresAt == now + 10 * 60 * 1000
  }

  lemma AtOnceBinds(env: Env, s: State, q: Initiation, jti: Id, now: Time)
    requires RailServe.PassesGates(env, s, q, now) && FreshIds(s, q) && q.verificationMethod == PC.OtpToOldPhone
    ensures BoundAtOnce(env, s, Authorised(env, s, q, jti, now).state, q, jti, now)
  {
    RailServe.AuthorisedOutcome(env, s, q, jti, now);
    SupersedingKeepsKeys(s.changes, q.uuid, now);
  }

  lemma AwaitingWaits(env: Env, s: State, q: Initiation, jti: Id, now: Time)
    requires RailServe.PassesGates(env, s, q, now) && FreshIds(s, q) &&
        q.verificationMethod == PC.OtpToNewPhoneWithStepUpToOld
    ensures AwaitsNewPhone(env, s, Authorised(env, s, q, jti, now).state, q, jti, now)
  {
    RailServe.AuthorisedOutcome(env, s, q, jti, now);
    SupersedingKeepsKeys(s.changes, q.uuid, now);
  }

  predicate ActiveOf(p: PC.Table, id: Id, accountId: Id) {
    RailPhoneChanges.IsActive(p, id) && p.rows[id].info.accountId == accountId
  }

  /** The account's active change is cancelled, and no other row that was there is touched. */
  ghost predicate Supersedes(p: PC.Table, p': PC.Table, accountId: Id) {
    && (forall id :: ActiveOf(p, id, accountId) ==>
        && id in p'.rows && p'.rows[id].info == p.rows[id].info && p'.rows[id].state == PC.Cancelled
        && p'.rows[id].cancelReason == Some(PC.SupersededByNewInitiate))
    && (forall id :: id in p.rows && !ActiveOf(p, id, accountId) ==> id in p'.rows && p'.rows[id] == p.rows[id])
  }

  lemma ExistingIsSuperseded(p: PC.Table, accountId: Id, now: Time)
    requires PC.WellFormed(p) && RailPhoneChanges.OneActive(p)
    ensures Supersedes(p, PC.WithExistingCancelled(p, accountId, now), accountId)
  {
    var existing := PC.FindActive(p, accountId);
    forall id | ActiveOf(p, id, accountId) ensures existing == Some(id) {
      assert PC.IsActiveFor(p, id, accountId) && id in p.order;
    }
  }

  lemma AuthorisedChanges(env: Env, s: State, q: Initiation, jti: Id, now: Time)
    requires RailServe.PassesGates(env, s, q, now) && FreshIds(s, q)
    ensures var p, p' := PC.WithExistingCancelled(s.changes, q.uuid, now),
        Authorised(env, s, q, jti, now).state.changes;
      p'.rows.Keys == p.rows.Keys + {q.changeId} && forall id :: id in p.rows ==> p'.rows[id] == p.rows[id]
  {
    RailServe.AuthorisedOutcome(env, s, q, jti, now);
    SupersedingKeepsKeys(s.changes, q.uuid, now);
  }

  lemma AuthorisedSupersedes(env: Env, s: State, q: Initiation, jti: Id, now: Time)
    requires PC.WellFormed(s.changes) && RailPhoneChanges.OneActive(s.changes)
    requires RailServe.PassesGates(env, s, q, now) && FreshIds(s, q)
    ensures var p' := Authorised(env, s, q, jti, now).state.changes;
      Supersedes(s.changes, p', q.uuid) && p'.rows.Keys == s.changes.rows.Keys + {q.changeId}
  {
    ExistingIsSuperseded(s.changes, q.uuid, now);
    AuthorisedChanges(env, s, q, jti, now);
    SupersedingKeepsKeys(s.changes, q.uuid, now);
  }

  lemma AuthorisedTouchesNoAuthority(env: Env, s: State, q: Initiation, jti: Id, now: Time)
    ensures var s' := Authorised(env, s, q, jti, now).state;
      s'.tokens == s.tokens && s'.issued == s.issued && s'.signings == s.signings && s'.answered == s.answered &&
      s'.accountEvents == s.accountEvents
  {
    RailServe.AuthorisedOutcome(env, s, q, jti, now);
  }

  /**
   * What a successful initiate does, by its method: the number is bound at once with a day of
   * cooldown, or a change and a challenge wait ten minutes for the new phone. Either way the
   * token is spent, and an earlier change of the account that was still active is cancelled.
   */
  lemma InitiateDoes(env: Env, s: State, q: Initiation, now: Time)
    requires PC.WellFormed(s.changes) && RailPhoneChanges.OneActive(s.changes) && Cust.IndexAgrees(s.customers)
    requires Initiate(env, s, q, now).reply.Ok?
    ensures q.token.Some? && q.token.value.claims.jti.Some? && q.token.value.claims.jti.value in s.tokens
    ensures var s', jti := Initiate(env, s, q, now).state, q.token.value.claims.jti.value;
      && (if q.verificationMethod == PC.OtpToOldPhone then BoundAtOnce(env, s, s', q, jti, now)
          else AwaitsNewPhone(env, s, s', q, jti, now))
      && Supersedes(s.changes, s'.changes, q.uuid)
      && s'.changes.rows.Keys == s.changes.rows.Keys + {q.changeId}
      && s'.tokens == s.tokens[jti := s.tokens[jti].(consumedAt := Some(now))]
      && s'.issued == s.issued && s'.signings == s.signings && s'.accountEvents == s.accountEvents
  {
    TokenIsAccepted(env, s, q, now);
    var (spent, v) := WithStepupSpent(env, s, q, now);
    AuthorisedReply(env, spent, q, v.jti, now);
    AuthorisedSupersedes(env, spent, q, v.jti, now);
    AuthorisedTouchesNoAuthority(env, spent, q, v.jti, now);
    if q.verificationMethod == PC.OtpToOldPhone {
      AtOnceBinds(env, spent, q, v.jti, now);
    } else {
      AwaitingWaits(env, spent, q, v.jti, now);
    }
  }

  /** The token gets the caller past the verifier. */
  predicate TokenAccepted(env: Env, s: State, q: Initiation, now: Time) {
    q.token.Some? && Genuine(env, q.token.value, q.uuid, now) && SU.Unspent(s.tokens, q.token.value.claims.jti.value)
  }

  /**
   * Why an initiate is refused: each answer exactly when its reason is the first to apply. A
   * refusal binds nothing; it spends the token if and only if the token was accepted.
   */
  lemma InitiateRefusals(env: Env, s: State, q: Initiation, now: Time)
    requires Cust.IndexAgrees(s.customers)
    ensures var r := Initiate(env, s, q, now);
      var known := TokenAccepted(env, s, q, now) && q.uuid in s.customers.accounts;
      var cool := known && !PhoneCooldown.IsInCooldown(s.customers.accounts[q.uuid].cooldownUntil, now);
      var n := PhoneNormalise.Normalise(q.newPhone);
      && (r.reply.Error? && r.reply.status == 401 <==> !TokenAccepted(env, s, q, now))
      && (r.reply == Error(401, AuthFactorRequired) <==> q.token.None?)
      && (r.reply == Error(401, StepupTokenExpired) <==>
          && q.token.Some? && env.verifierKeys != []
          && q.token.value.signer == Some(env.verifierKeys[|env.verifierKeys| - 1].key)
          && VerifyClaims(q.token.value.claims, env.issuer, "https://api.id.identiti.co.ke", now) ==
            Rejected(TokenExpired))
      && (r.reply == Error(404, CustomerNotFound) <==>
          TokenAccepted(env, s, q, now) && q.uuid !in s.customers.accounts)
      && (r.reply == Error(422, PhoneChangeCooldownActive) <==>
          known && PhoneCooldown.IsInCooldown(s.customers.accounts[q.uuid].cooldownUntil, now))
      && (r.reply == Error(400, ValidationPhoneInvalid) <==> cool && n.None?)
      && (r.reply == Error(400, ValidationRequestInvalid) <==>
          cool && n.Some? && env.crypto.hash(n.value) == s.customers.accounts[q.uuid].phoneHash)
      && (r.reply == Error(400, ValidationPhoneAlreadyRegistered) <==>
          cool && n.Some? && RailTheorems.HeldByAnother(s, q.uuid, env.crypto.hash(n.value)))
      && (r.reply == Error(500, InternalUnspecified) <==>
          cool && Available(env, s, q.uuid, q.newPhone) && !FreshIds(s, q))
    ensures var r := Initiate(env, s, q, now);
      r.reply.Error? ==>
        && r.state.customers == s.customers && r.state.phoneEvents == s.phoneEvents
        && r.state.issued == s.issued && r.state.signings == s.signings
        && if TokenAccepted(env, s, q, now) then
             var jti := q.token.value.claims.jti.value;
             r.state.tokens == s.tokens[jti := s.tokens[jti].(consumedAt := Some(now))]
           else r.state == s
  {
    if q.token.Some? {
      TokenIsAccepted(env, s, q, now);
      SV.ExpiredExactlyWhen(env.verifierKeys, env.issuer, q.token.value,
                            SV.Expectation(IDENTITI_AUDIENCE, q.uuid, PHONE_CHANGE_OPERATION_KIND), now);
      var (spent, v) := WithStepupSpent(env, s, q, now);
      if v.Valid? {
        GatesAreAvailability(env, spent, q, now);
        AuthorisedReply(env, spent, q, v.jti, now);
        AuthorisedRefusals(env, spent, q, v.jti, now);
        AuthorisedTouchesNoAuthority(env, spent, q, v.jti, now);
        if Authorised(env, spent, q, v.jti, now).reply.Error? { RefusalBindsNothing(env, spent, q, v.jti, now); }
      }
    }
  }

  lemma RefusalBindsNothing(env: Env, s: State, q: Initiation, jti: Id, now: Time)
    requires Authorised(env, s, q, jti, now).reply.Error?
    ensures var s' := Authorised(env, s, q, jti, now).state;
      s'.customers == s.customers && s'.phoneEvents == s.phoneEvents
  {
    RailServe.AuthorisedOutcome(env, s, q, jti, now);
  }

  lemma AuthorisedRefusals(env: Env, s: State, q: Initiation, jti: Id, now: Time)
    requires Cust.IndexAgrees(s.customers)
    ensures var r := Authorised(env, s, q, jti, now);
      var cool := q.uuid in s.customers.accounts &&
        !PhoneCooldown.IsInCooldown(s.customers.accounts[q.uuid].cooldownUntil, now);
      var n := PhoneNormalise.Normalise(q.newPhone);
      && (r.reply.Error? ==> r.reply.status != 401)
      && (r.reply == Error(404, CustomerNotFound) <==> q.uuid !in s.customers.accounts)
      && (r.reply == Error(422, PhoneChangeCooldownActive) <==> q.uuid in s.customers.accounts && !cool)
      && (r.reply == Error(400, ValidationPhoneInvalid) <==> cool && n.None?)
      && (r.reply == Error(400, ValidationRequestInvalid) <==>
          cool && n.Some? && env.crypto.hash(n.value) == s.customers.accounts[q.uuid].phoneHash)
      && (r.reply == Error(400, ValidationPhoneAlreadyRegistered) <==>
          cool && n.Some? && RailTheorems.HeldByAnother(s, q.uuid, env.crypto.hash(n.value)))
      && (r.reply == Error(500, InternalUnspecified) <==>
          cool && Available(env, s, q.uuid, q.newPhone) && !FreshIds(s, q))
  {
    var n := PhoneNormalise.Normalise(q.newPhone);
    if q.uuid in s.customers.accounts && n.Some? {
      RailTheorems.HeldByAnotherIsTaken(s.customers, q.uuid, env.crypto.hash(n.value));
    }
    if RailServe.PassesGates(env, s, q, now) {
      GatesAreAvailability(env, s, q, now);
      PassedReply(env, s, q, jti, now);
    }
  }

  lemma PassedReply(env: Env, s: State, q: Initiation, jti: Id, now: Time)
    requires RailServe.PassesGates(env, s, q, now)
    ensures Authorised(env, s, q, jti, now).reply == if FreshIds(s, q) then Ok(201) else Error(500, InternalUnspecified)
  {
    SupersedingKeepsKeys(s.changes, q.uuid, now);
  }

  // Confirming.

  /** The failed answer is counted in the row, and the third one fails it. */
  predicate CountsFailure(h: AC.Challenges, h': AC.Challenges, id: Id, now: Time)
    requires id in h
  {
    var c := h[id];
    h' == h[id := if c.attemptsUsed >= 2 then
        c.(attemptsUsed := c.attemptsUsed + 1, status := AC.Failed, consumedAt := Some(now))
      else c.(attemptsUsed := c.attemptsUsed + 1, status := AC.Pending, consumedAt := None)]
  }

  /** The change is cancelled for the reason given, and no other row is touched. */
  predicate Cancels(p: PC.Table, p': PC.Table, id: Id, reason: PC.CancelReason, now: Time)
    requires id in p.rows
  {
    p' == p.(rows := p.rows[id := p.rows[id].(
      state := PC.Cancelled, cancelledAt := Some(now), cancelReason := Some(reason))])
  }

  /**
   * The number of the change is bound with a day of cooldown, the change completed, its challenge
   * consumed, one event told.
   */
  predicate CompletesChange(s: State, s': State, uuid: Id, id: Id, now: Time)
    requires RailTheorems.Confirmable(s, uuid, id, now) && uuid in s.customers.accounts
  {
    var i, a := s.changes.rows[id].info, s.customers.accounts[uuid];
    var c := s.challenges[i.challengeNewId.value];
    && s'.customers.accounts == s.customers.accounts[uuid := a.(
        phoneHash := i.newPhoneHash, phoneEncrypted := i.newPhoneEncrypted,
        cooldownUntil := Some(now + 24 * 60 * 60 * 1000), lastChangeAt := now)]
    && s'.changes == s.changes.(rows := s.changes.rows[id := s.changes.rows[id].(
        state := PC.Completed, completedAt := Some(now))])
    && s'.challenges == s.challenges[i.challengeNewId.value := c.(
        attemptsUsed := c.attemptsUsed + 1, status := AC.Consumed, consumedAt := Some(now))]
    && s'.phoneEvents == s.phoneEvents + [PhoneChanged(uuid, a.phoneHash, i.newPhoneHash, now,
        PC.OtpToNewPhoneWithStepUpToOld, i.authorisingStepupJti)]
  }

  /** What reachable states guarantee about a change that waits for its confirmation. */
  lemma AwaitingOwnsChallenge(env: Env, s: State, id: Id, now: Time)
    requires RailInvariants.Inv(env, s, now) && id in s.changes.rows && s.changes.rows[id].state == PC.CooldownActive
    ensures var i := s.changes.rows[id].info;
      && i.id == id && i.challengeNewId.Some? && i.challengeNewId.value in s.challenges
      && var c := s.challenges[i.challengeNewId.value];
      && c.info.otpHash.Some? && (c.status == AC.Pending || c.status == AC.Consumed)
  {
    assert RailPhoneChanges.RowOk(s.challenges, s.changes.rows[id], now);
  }

  lemma WrongCode(s: State, uuid: Id, id: Id, now: Time)
    requires RailTheorems.Confirmable(s, uuid, id, now)
    ensures var r, cid := Confirm(s, uuid, id, false, now), s.changes.rows[id].info.challengeNewId.value;
      && r.reply == Error(401, AuthFactorFailed)
      && r.state == s.(changes := r.state.changes, challenges := r.state.challenges)
      && CountsFailure(s.challenges, r.state.challenges, cid, now)
      && if s.challenges[cid].attemptsUsed >= 2 then
           Cancels(s.changes, r.state.changes, id, PC.MaxOtpAttempts, now)
         else r.state.changes == s.changes
  {}

  lemma RightCode(s: State, uuid: Id, id: Id, now: Time)
    requires RailTheorems.Confirmable(s, uuid, id, now)
    ensures var r, i := Confirm(s, uuid, id, true, now), s.changes.rows[id].info;
      && (r.reply.Ok? <==> Cust.SwapOutcome(s.customers, uuid, i.newPhoneHash) == Cust.Done)
      && (r.reply.Ok? ==> r.reply == Ok(200) && CompletesChange(s, r.state, uuid, id, now))
      && (r.reply.Error? ==> r.state.customers == s.customers && r.state.phoneEvents == s.phoneEvents)
      && r.state.tokens == s.tokens && r.state.issued == s.issued && r.state.signings == s.signings
  {}

  /** The challenge was consumed by an answer whose swap failed: the change is cancelled at the next try. */
  lemma StrandedCode(s: State, uuid: Id, id: Id, matches: bool, now: Time)
    requires id in s.changes.rows
    requires var r := s.changes.rows[id];
      && r.info.id == id && r.info.accountId == uuid && r.state == PC.CooldownActive && now < r.info.expiresAt
      && r.info.challengeNewId.Some? && r.info.challengeNewId.value in s.challenges
      && var c := s.challenges[r.info.challengeNewId.value];
      c.info.otpHash.Some? && c.status == AC.Consumed
    ensures var r := Confirm(s, uuid, id, matches, now);
      && r.reply == Error(401, AuthFactorFailed) && r.state == s.(changes := r.state.changes)
      && Cancels(s.changes, r.state.changes, id, PC.ChallengeNotPending(AC.Consumed), now)
  {}

  /** The change is this account's, waits for its confirmation and is in time. */
  predicate Awaits(s: State, uuid: Id, id: Id, now: Time) {
    && id in s.changes.rows && s.changes.rows[id].info.accountId == uuid
    && s.changes.rows[id].state == PC.CooldownActive && now < s.changes.rows[id].info.expiresAt
  }

  lemma EarlyRefusal(s: State, uuid: Id, id: Id, matches: bool, now: Time)
    requires !Awaits(s, uuid, id, now)
    ensures var r := Confirm(s, uuid, id, matches, now);
      if id !in s.changes.rows || s.changes.rows[id].info.accountId != uuid then
        r == Result(s, Error(404, PhoneChangeNotFound))
      else if s.changes.rows[id].state != PC.CooldownActive then r == Result(s, Error(409, StateInvalidForAction))
      else
        && r.reply == Error(410, AuthChallengeExpired) && r.state == s.(changes := r.state.changes)
        && Cancels(s.changes, r.state.changes, id, PC.AwaitingConfirmationExpired, now)
  {}

  /** Why a confirm is refused before the number is looked at, and what the refusal leaves behind. */
  lemma ConfirmRefusals(env: Env, s: State, uuid: Id, id: Id, matches: bool, now: Time)
    requires RailInvariants.Inv(env, s, now)
    ensures var r := Confirm(s, uuid, id, matches, now);
      if id !in s.changes.rows || s.changes.rows[id].info.accountId != uuid then
        r == Result(s, Error(404, PhoneChangeNotFound))
      else if s.changes.rows[id].state != PC.CooldownActive then r == Result(s, Error(409, StateInvalidForAction))
      else if s.changes.rows[id].info.expiresAt <= now then
        && r.reply == Error(410, AuthChallengeExpired) && r.state == s.(changes := r.state.changes)
        && Cancels(s.changes, r.state.changes, id, PC.AwaitingConfirmationExpired, now)
      else if !RailTheorems.Confirmable(s, uuid, id, now) then
        && r.reply == Error(401, AuthFactorFailed) && r.state == s.(changes := r.state.changes)
        && Cancels(s.changes, r.state.changes, id, PC.ChallengeNotPending(AC.Consumed), now)
      else !matches ==>
        var cid := s.changes.rows[id].info.challengeNewId.value;
        && r.reply == Error(401, AuthFactorFailed)
        && r.state == s.(changes := r.state.changes, challenges := r.state.challenges)
        && CountsFailure(s.challenges, r.state.challenges, cid, now)
        && if s.challenges[cid].attemptsUsed >= 2 then
             Cancels(s.changes, r.state.changes, id, PC.MaxOtpAttempts, now)
           else r.state.changes == s.changes
  {
    if Awaits(s, uuid, id, now) {
      AwaitingOwnsChallenge(env, s, id, now);
      if !RailTheorems.Confirmable(s, uuid, id, now) {
        StrandedCode(s, uuid, id, matches, now);
      } else if !matches {
        WrongCode(s, uuid, id, now);
      }
    } else {
      EarlyRefusal(s, uuid, id, matches, now);
    }
  }

  /**
   * A confirm succeeds exactly when the change can be confirmed, the code is right, the account is
   * there and no other one holds the number; nothing but a success binds a number or tells an event.
   */
  lemma ConfirmSucceedsExactlyWhen(env: Env, s: State, uuid: Id, id: Id, matches: bool, now: Time)
    requires RailInvariants.Inv(env, s, now)
    ensures var r := Confirm(s, uuid, id, matches, now);
      && (r.reply.Ok? <==>
          && RailTheorems.Confirmable(s, uuid, id, now) && matches && uuid in s.customers.accounts
          && !RailTheorems.HeldByAnother(s, uuid, s.changes.rows[id].info.newPhoneHash))
      && (r.reply.Ok? ==> r.reply == Ok(200) && CompletesChange(s, r.state, uuid, id, now))
      && (r.reply.Error? ==> r.state.customers == s.customers && r.state.phoneEvents == s.phoneEvents)
      && r.state.tokens == s.tokens && r.state.issued == s.issued && r.state.signings == s.signings
  {
    if !RailTheorems.Confirmable(s, uuid, id, now) {
      ConfirmRefusals(env, s, uuid, id, matches, now);
    } else if matches {
      RightCode(s, uuid, id, now);
      if uuid in s.customers.accounts {
        RailTheorems.HeldByAnotherIsTaken(s.customers, uuid, s.changes.rows[id].info.newPhoneHash);
      }
    } else {
      WrongCode(s, uuid, id, now);
    }
  }
}
