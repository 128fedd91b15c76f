/** The invariant of the rail, and what each elementary change of the stores does to it. */
module RailInvariants {
  import opened Domain
  import opened Rail
  import opened RailAuthority
  import opened RailPhoneChanges
  import opened RailRecords
  import AC = AuthChallenges
  import SU = StepUpTokens
  import PC = PhoneChanges
  import Cust = Customers
  import Req = StepupRequests
  import Crypto = PhoneCrypto
  import PhoneCooldown
  import TierTimeline
  import Jwt

  ghost predicate AuthorityInv(env: Env, s: State) {
    && ChallengesOk(s.challenges) && TokensOk(s.challenges, s.tokens, s.answered)
    && IssuedOk(env.issuer, s.tokens, s.issued)
    && SpendInv(s.tokens, s.changes, s.signings)
  }

  ghost predicate PhoneInv(s: State, now: Time) {
    && ChangeInv(s.challenges, s.changes, now)
    && CoolInv(s.customers.accounts, s.changes, s.phoneEvents)
    && SwapInv(s.changes, s.phoneEvents)
  }

  ghost predicate RecordsInv(env: Env, s: State, now: Time) {
    && PhonesInv(env.crypto, s.customers, s.changes)
    && TierTimeline.TimelineInv(s.customers, now) && TierTimeline.UniqueIds(s.customers.history)
    && ReplayInv(s.customers.accounts, s.accountEvents)
    && RewindInv(s.customers.accounts, s.phoneEvents)
  }

  /** Everything that holds between two requests, `now` being the last reading of the clock or a later one. */
  ghost predicate Inv(env: Env, s: State, now: Time) {
    AuthorityInv(env, s) && PhoneInv(s, now) && RecordsInv(env, s, now)
  }

  lemma InitHasInv(env: Env, now: Time)
    ensures Inv(env, INIT, now)
  {
    assert Views(Cust.EMPTY.accounts) == map[];
  }

  lemma LaterKeepsInv(env: Env, s: State, before: Time, now: Time)
    requires Inv(env, s, before) && before <= now
    ensures Inv(env, s, now)
  {
    forall id | id in s.changes.rows ensures RowOk(s.challenges, s.changes.rows[id], now) {
      assert RowOk(s.challenges, s.changes.rows[id], before);
    }
    TierTimeline.SameTiersKeepTimelines(s.customers, s.customers, before, now);
  }

  // Challenges and tokens.

  lemma ChallengeKeepsInv(env: Env, s: State, info: AC.ChallengeInfo, now: Time)
    requires Inv(env, s, now) && Req.Creatable(info)
    ensures Inv(env, s.(challenges := AC.WithChallenge(s.challenges, info, now)), now)
  {
    ChallengeKeepsTokens(s.challenges, s.tokens, s.answered, info, now);
    ChallengeKeepsChangeInv(s.challenges, s.changes, info, now);
  }

  lemma ConsumeKeepsInv(env: Env, s: State, cid: Id, now: Time)
    requires Inv(env, s, now) && cid in s.challenges && s.challenges[cid].status == AC.Pending
    ensures Inv(env, Consuming(s, cid, AC.Success(now), true), now)
  {
    ConsumeKeepsTokens(s.challenges, s.tokens, s.answered, cid, now);
    AttemptKeepsChangeInv(s.challenges, s.changes, cid, AC.Success(now), now);
  }

  lemma AttemptKeepsInv(env: Env, s: State, cid: Id, next: AC.AttemptUpdate, now: Time)
    requires Inv(env, s, now)
    requires next.status != AC.Consumed
    requires (cid in s.challenges ==> s.challenges[cid].info.purpose != AC.PhoneChangeToNew) ||
        next.status == AC.Pending
    ensures Inv(env, s.(challenges := AC.WithAttempt(s.challenges, cid, next)), now)
  {
    AttemptKeepsTokens(s.challenges, s.tokens, s.answered, cid, next);
    AttemptKeepsChangeInv(s.challenges, s.changes, cid, next, now);
  }

  lemma BearerKeepsInv(env: Env, s: State, t: Jwt.Token, now: Time)
    requires Inv(env, s, now) && t.claims.operationKind.None?
    ensures Inv(env, s.(issued := s.issued + {t}), now)
  {}

  function MintedState(env: Env, s: State, id: Id, now: Time): State
    requires id in s.challenges && Req.BoundToOperation(s.challenges[id].info)
  {
    var row := SU.Minted(s.challenges[id].info, now);
    Consuming(s, id, AC.Success(now), true).(
       tokens := SU.WithToken(s.tokens, row),
       issued := s.issued + {Jwt.Token(Some(env.signingKey), StepupClaims(env.issuer, row))})
  }

  lemma MintKeepsInv(env: Env, s: State, id: Id, response: AC.FactorResponse, now: Time)
    requires Inv(env, s, now) && AC.StepupDecision(Lookup(s.challenges, id), response, now).RecordAndProceed?
    ensures id !in s.tokens && SU.Minted(s.challenges[id].info, now).jti == id
    ensures Req.BoundToOperation(s.challenges[id].info) && Inv(env, MintedState(env, s, id, now), now)
  {
    Req.OnlyBoundChallengesProceed(s.challenges[id], response, now);
    MintKeepsTokens(env, s, id, response, now);
    AttemptKeepsChangeInv(s.challenges, s.changes, id, AC.Success(now), now);
    QuietStepsKeepSpendInv(s.tokens, SU.WithToken(s.tokens, SU.Minted(s.challenges[id].info, now)), s.changes,
        s.changes, s.signings);
  }

  lemma SpendKeepsInv(env: Env, s: State, jti: Id, now: Time)
    requires Inv(env, s, now) && SU.Unspent(s.tokens, jti)
    ensures var s' := s.(tokens := SU.WithConsumed(s.tokens, jti, now));
      Inv(env, s', now) && Unused(s'.changes, s'.signings, jti)
  {
    SpendKeepsTokens(env.issuer, s.challenges, s.tokens, s.answered, s.issued, jti, now);
    SpendingYieldsUnusedToken(s.tokens, s.changes, s.signings, jti, now);
  }

  lemma SigningKeepsInv(env: Env, s: State, row: SU.Signing, t: Jwt.Token, now: Time)
    requires Inv(env, s, now) && t.claims.operationKind.None?
    requires row.stepUpJti.Some? ==>
        Unused(s.changes, s.signings, row.stepUpJti.value) && Authorises(s.tokens, row.stepUpJti.value, row.accountUuid)
    ensures Inv(env, s.(signings := SU.WithSigning(s.signings, row), issued := s.issued + {t}), now)
  {
    NewSigningKeepsSpendInv(s.tokens, s.changes, s.signings, row);
  }

  // Phone changes.

  lemma SameInfosKeepPhones(c: Crypto.Crypto, s: Cust.Store, p: PC.Table, p': PC.Table)
    requires PhonesInv(c, s, p) && SameInfos(p, p')
    ensures PhonesInv(c, s, p')
  {}

  /** Rows that only moved towards `cancelled`. */
  lemma ShrinkKeepsInv(env: Env, s: State, s': State, now: Time)
    requires Inv(env, s, now) && s' == s.(challenges := s'.challenges, changes := s'.changes)
    requires ChallengesOk(s'.challenges) && TokensOk(s'.challenges, s.tokens, s.answered) &&
        ChangeInv(s'.challenges, s'.changes, now)
    requires SameInfos(s.changes, s'.changes) && SameCompleted(s.changes, s'.changes) &&
        ActiveShrinks(s.changes, s'.changes)
    ensures Inv(env, s', now)
    ensures forall jti :: Unused(s.changes, s.signings, jti) ==> Unused(s'.changes, s.signings, jti)
  {
    QuietStepsKeepSpendInv(s.tokens, s.tokens, s.changes, s'.changes, s.signings);
    QuietStepsKeepCoolInv(s.customers.accounts, s.customers.accounts, s.changes, s'.changes, s.phoneEvents);
    QuietStepsKeepSwapInv(s.changes, s'.changes, s.phoneEvents);
    SameInfosKeepPhones(env.crypto, s.customers, s.changes, s'.changes);
  }

  lemma CancelKeepsInv(env: Env, s: State, id: Id, reason: PC.CancelReason, now: Time)
    requires Inv(env, s, now)
    ensures Inv(env, s.(changes := PC.WithCancelled(s.changes, id, reason, now)), now)
  {
    CancelKeepsChangeInv(s.challenges, s.changes, id, reason, now);
    CancelTouchesActive(s.changes, id, reason, now);
    ShrinkKeepsInv(env, s, s.(changes := PC.WithCancelled(s.changes, id, reason, now)), now);
  }

  lemma FailureKeepsInv(env: Env, s: State, id: Id, cid: Id, next: AC.AttemptUpdate, reason: PC.CancelReason, now: Time)
    requires Inv(env, s, now) && IsActive(s.changes, id) && s.changes.rows[id].info.challengeNewId == Some(cid)
    requires next.status != AC.Consumed
    ensures Inv(env, s.(challenges := AC.WithAttempt(s.challenges, cid, next),
        changes := PC.WithCancelled(s.changes, id, reason, now)), now)
  {
    AttemptKeepsTokens(s.challenges, s.tokens, s.answered, cid, next);
    FailureKeepsChangeInv(s.challenges, s.changes, id, cid, next, reason, now);
    CancelTouchesActive(s.changes, id, reason, now);
    ShrinkKeepsInv(env, s, s.(challenges := AC.WithAttempt(s.challenges, cid, next),
        changes := PC.WithCancelled(s.changes, id, reason, now)), now);
  }

  lemma SupersedeKeepsInv(env: Env, s: State, accountId: Id, now: Time)
    requires Inv(env, s, now)
    ensures var s' := s.(changes := PC.WithExistingCancelled(s.changes, accountId, now));
      Inv(env, s', now) && NoneActive(s'.changes, accountId)
    ensures forall jti :: Unused(s.changes, s.signings, jti) ==>
        Unused(PC.WithExistingCancelled(s.changes, accountId, now), s.signings, jti)
  {
    SupersedeKeepsChangeInv(s.challenges, s.changes, accountId, now);
    ShrinkKeepsInv(env, s, s.(changes := PC.WithExistingCancelled(s.changes, accountId, now)), now);
  }

  /** `uuid` may take over the number with this hash. */
  predicate Claimable(c: Cust.Store, uuid: Id, hash: string) {
    Cust.SwapOutcome(c, uuid, hash) == Cust.Done
  }

  lemma SwapKeepsRecords(env: Env, s: State, p': PC.Table, uuid: Id, hash: string, sealed: Crypto.Bytes,
      e: PhoneChanged, now: Time)
    requires RecordsInv(env, s, now) && Claimable(s.customers, uuid, hash) && SealsHash(env.crypto, hash, sealed) &&
        RowsSealed(env.crypto, p')
    requires e.account == uuid && e.oldHash == s.customers.accounts[uuid].phoneHash && e.newHash == hash
    ensures var c' := Cust.WithPhone(s.customers, uuid, hash, sealed,
        PhoneCooldown.ComputeCooldownUntil(now, false), now);
      RecordsInv(env, s.(customers := c', changes := p', phoneEvents := s.phoneEvents + [e]), now)
  {
    var cooldownUntil := PhoneCooldown.ComputeCooldownUntil(now, false);
    var c' := Cust.WithPhone(s.customers, uuid, hash, sealed, cooldownUntil, now);
    var a := Cust.Rebound(s.customers.accounts[uuid], hash, sealed, cooldownUntil, now);
    assert c'.accounts == s.customers.accounts[uuid := a];
    SwapKeepsPhonesInv(env.crypto, s.customers, s.changes, p', uuid, hash, sealed, cooldownUntil, now);
    SwapKeepsViews(s.customers, uuid, hash, sealed, cooldownUntil, now);
    TierTimeline.SameTiersKeepTimelines(s.customers, c', now, now);
    SameViewsKeepReplayInv(s.customers.accounts, c'.accounts, s.accountEvents);
    SwapKeepsRewindInv(s.customers.accounts, s.phoneEvents, e, a);
  }

  lemma SpendGivesDistinctJtis(t: SU.Tokens, p: PC.Table, g: SU.Signings)
    requires SpendInv(t, p, g)
    ensures DistinctJtis(p)
  {
    forall a, b | a in p.rows && b in p.rows && a != b
        ensures p.rows[a].info.authorisingStepupJti != p.rows[b].info.authorisingStepupJti {
      assert UsedBy(p, g, ByChange(a)) != UsedBy(p, g, ByChange(b));
    }
  }

  function SwappedState(s: State, p': PC.Table, uuid: Id, hash: string, sealed: Crypto.Bytes, m: PC.Method,
      jti: Id, now: Time): State
    requires uuid in s.customers.accounts
  {
    s.(customers := Cust.WithPhone(s.customers, uuid, hash, sealed,
        PhoneCooldown.ComputeCooldownUntil(now, false), now),
       changes := p',
       phoneEvents := s.phoneEvents + [PhoneChanged(uuid, s.customers.accounts[uuid].phoneHash, hash, now, m, jti)])
  }

  /** Row `id`, and no other, becomes completed. */
  ghost predicate CompletesOne(p: PC.Table, p': PC.Table, id: Id) {
    && id in p'.rows && p'.rows[id].state == PC.Completed
    && (id in p.rows ==> p.rows[id].state != PC.Completed)
    && (forall a :: a != id ==> (a in p.rows <==> a in p'.rows) && (a in p.rows ==> p'.rows[a] == p.rows[a]))
    && ActiveShrinks(p, p')
  }

  predicate MaySwap(c: Cust.Store, i: PC.ChangeInfo, now: Time) {
    Claimable(c, i.accountId, i.newPhoneHash) && PastCooldown(c.accounts, i.accountId, now)
  }

  lemma CompletedSwapKeepsPhoneInv(s: State, p': PC.Table, id: Id, now: Time)
    requires PhoneInv(s, now) && ChangeInv(s.challenges, p', now) && DistinctJtis(p') && CompletesOne(s.changes, p', id)
    requires MaySwap(s.customers, p'.rows[id].info, now) && NoneActive(p', p'.rows[id].info.accountId)
    ensures var i := p'.rows[id].info;
      PhoneInv(SwappedState(s, p', i.accountId, i.newPhoneHash, i.newPhoneEncrypted, i.verificationMethod,
          i.authorisingStepupJti, now), now)
  {
    var i := p'.rows[id].info;
    var accounts := s.customers.accounts;
    var e := PhoneChanged(i.accountId, accounts[i.accountId].phoneHash, i.newPhoneHash, now, i.verificationMethod,
        i.authorisingStepupJti);
    var a := Cust.Rebound(accounts[i.accountId], i.newPhoneHash, i.newPhoneEncrypted,
        PhoneCooldown.ComputeCooldownUntil(now, false), now);
    SwapKeepsCoolInv(accounts, s.changes, p', s.phoneEvents, a, e);
    SwapKeepsSwapInv(s.changes, p', s.phoneEvents, id, e);
  }

  /** A change completed together with its swap. */
  lemma CompletedSwapKeepsInv(env: Env, s: State, p': PC.Table, id: Id, now: Time)
    requires Inv(env, s, now) && CompletesOne(s.changes, p', id)
    requires MaySwap(s.customers, p'.rows[id].info, now) && NoneActive(p', p'.rows[id].info.accountId)
    requires ChangeInv(s.challenges, p', now) && SpendInv(s.tokens, p', s.signings) && RowsSealed(env.crypto, p')
    ensures var i := p'.rows[id].info;
      Inv(env, SwappedState(s, p', i.accountId, i.newPhoneHash, i.newPhoneEncrypted, i.verificationMethod,
          i.authorisingStepupJti, now), now)
  {
    var i := p'.rows[id].info;
    var e := PhoneChanged(i.accountId, s.customers.accounts[i.accountId].phoneHash, i.newPhoneHash, now,
        i.verificationMethod, i.authorisingStepupJti);
    SpendGivesDistinctJtis(s.tokens, p', s.signings);
    CompletedSwapKeepsPhoneInv(s, p', id, now);
    SwapKeepsRecords(env, s, p', i.accountId, i.newPhoneHash, i.newPhoneEncrypted, e, now);
  }

  lemma NewRow(c: Crypto.Crypto, p: PC.Table, info: PC.ChangeInfo, state: PC.ChangeState, now: Time)
    requires info.id !in p.rows && RowsSealed(c, p) && SealsHash(c, info.newPhoneHash, info.newPhoneEncrypted)
    ensures var p' := PC.WithChange(p, info, state, now);
      && RowsSealed(c, p') && p'.rows[info.id].info == info
      && (state == PC.Completed ==> CompletesOne(p, p', info.id) && forall u :: NoneActive(p, u) ==> NoneActive(p', u))
      && (state != PC.Completed ==> SameCompleted(p, p'))
  {
    var p' := PC.WithChange(p, info, state, now);
    assert forall a :: IsActive(p', a) && a != info.id ==> IsActive(p, a) && p'.rows[a] == p.rows[a];
  }

  lemma CompletedRow(c: Crypto.Crypto, p: PC.Table, id: Id, now: Time)
    requires id in p.rows && p.rows[id].state == PC.CooldownActive && RowsSealed(c, p) && OneActive(p)
    ensures var p' := PC.WithCompleted(p, id, now);
      && RowsSealed(c, p') && CompletesOne(p, p', id) && p'.rows[id].info == p.rows[id].info
      && NoneActive(p', p.rows[id].info.accountId)
  {
    var p' := PC.WithCompleted(p, id, now);
    assert IsActive(p, id);
    assert forall a :: IsActive(p', a) ==> IsActive(p, a) && a != id && p'.rows[a] == p.rows[a];
  }

  lemma AtOnceKeepsInv(env: Env, s: State, info: PC.ChangeInfo, now: Time)
    requires Inv(env, s, now) && info.id !in s.changes.rows && NoneActive(s.changes, info.accountId)
    requires info.verificationMethod == PC.OtpToOldPhone && info.challengeNewId.None?
    requires Unused(s.changes, s.signings, info.authorisingStepupJti) &&
        AuthorisesChange(s.tokens, info.authorisingStepupJti, info.accountId)
    requires MaySwap(s.customers, info, now) && SealsHash(env.crypto, info.newPhoneHash, info.newPhoneEncrypted)
    ensures Inv(env, SwappedState(s, PC.WithChange(s.changes, info, PC.Completed, now), info.accountId,
        info.newPhoneHash, info.newPhoneEncrypted,
                                  PC.OtpToOldPhone, info.authorisingStepupJti, now), now)
  {
    var p' := PC.WithChange(s.changes, info, PC.Completed, now);
    NewRow(env.crypto, s.changes, info, PC.Completed, now);
    AtOnceKeepsChangeInv(s.challenges, s.changes, info, now);
    NewChangeKeepsSpendInv(s.tokens, s.changes, s.signings, info, PC.Completed, now);
    CompletedSwapKeepsInv(env, s, p', info.id, now);
  }

  lemma AwaitKeepsInv(env: Env, s: State, c: AC.ChallengeInfo, info: PC.ChangeInfo, now: Time)
    requires Inv(env, s, now) && c.id !in s.challenges && info.id !in s.changes.rows &&
        NoneActive(s.changes, info.accountId)
    requires info.verificationMethod == PC.OtpToNewPhoneWithStepUpToOld && info.challengeNewId == Some(c.id)
    requires Req.ForNewPhone(c) && c.accountId == Some(info.accountId) && c.expiresAt == info.expiresAt
    requires Unused(s.changes, s.signings, info.authorisingStepupJti) &&
        AuthorisesChange(s.tokens, info.authorisingStepupJti, info.accountId)
    requires PastCooldown(s.customers.accounts, info.accountId, now) &&
        SealsHash(env.crypto, info.newPhoneHash, info.newPhoneEncrypted)
    ensures Inv(env, s.(challenges := AC.WithChallenge(s.challenges, c, now),
        changes := PC.WithChange(s.changes, info, PC.CooldownActive, now)), now)
  {
    var p' := PC.WithChange(s.changes, info, PC.CooldownActive, now);
    ChallengeKeepsTokens(s.challenges, s.tokens, s.answered, c, now);
    AwaitKeepsChangeInv(s.challenges, s.changes, c, info, now);
    NewChangeKeepsSpendInv(s.tokens, s.changes, s.signings, info, PC.CooldownActive, now);
    AwaitKeepsCoolInv(s.customers.accounts, s.changes, s.phoneEvents, info, now);
    NewRow(env.crypto, s.changes, info, PC.CooldownActive, now);
    QuietStepsKeepSwapInv(s.changes, p', s.phoneEvents);
  }

  /** What was past the cooldown when it was initiated is past it when it is confirmed. */
  lemma ActiveIsPastCooldown(s: State, id: Id, now: Time)
    requires PhoneInv(s, now) && IsActive(s.changes, id)
    ensures PastCooldown(s.customers.accounts, s.changes.rows[id].info.accountId, now)
    ensures s.changes.rows[id].info.verificationMethod == PC.OtpToNewPhoneWithStepUpToOld
  {
    assert RowOk(s.challenges, s.changes.rows[id], now);
    assert PastCooldown(s.customers.accounts, s.changes.rows[id].info.accountId, s.changes.rows[id].initiatedAt);
  }

  /** The two-phone change completes: its challenge is consumed and the number is still free. */
  lemma ConfirmedKeepsInv(env: Env, s: State, id: Id, now: Time)
    requires Inv(env, s, now) && id in s.changes.rows && s.changes.rows[id].state == PC.CooldownActive
    requires var i := s.changes.rows[id].info;
      && i.challengeNewId.Some? && i.challengeNewId.value in s.challenges
      && s.challenges[i.challengeNewId.value].status == AC.Consumed
      && Claimable(s.customers, i.accountId, i.newPhoneHash)
    ensures var i := s.changes.rows[id].info;
      Inv(env, SwappedState(s, PC.WithCompleted(s.changes, id, now), i.accountId, i.newPhoneHash, i.newPhoneEncrypted,
                            PC.OtpToNewPhoneWithStepUpToOld, i.authorisingStepupJti, now), now)
  {
    var p' := PC.WithCompleted(s.changes, id, now);
    CompleteKeepsChangeInv(s.challenges, s.changes, id, now);
    CompleteTouchesOne(s.changes, id, now);
    QuietStepsKeepSpendInv(s.tokens, s.tokens, s.changes, p', s.signings);
    CompletedRow(env.crypto, s.changes, id, now);
    ActiveIsPastCooldown(s, id, now);
    CompletedSwapKeepsInv(env, s, p', id, now);
  }

  // Customers.

  lemma CustomersKeepInv(env: Env, s: State, s': State, now: Time)
    requires Inv(env, s, now) && s' == s.(customers := s'.customers, accountEvents := s'.accountEvents)
    requires SameCooldowns(s.customers.accounts, s'.customers.accounts) && RecordsInv(env, s', now)
    ensures Inv(env, s', now)
  {
    QuietStepsKeepCoolInv(s.customers.accounts, s'.customers.accounts, s.changes, s.changes, s.phoneEvents);
  }

  /** Writes that leave the phone records alone, with the event that reports them. */
  lemma QuietWriteKeepsInv(env: Env, s: State, c': Cust.Store, es': seq<AccountEvent>, now: Time)
    requires Inv(env, s, now) && SamePhones(s.customers.accounts, c'.accounts) &&
        c'.phoneHashes == s.customers.phoneHashes
    requires TierTimeline.TimelineInv(c', now) && TierTimeline.UniqueIds(c'.history) && ReplayInv(c'.accounts, es')
    ensures Inv(env, s.(customers := c', accountEvents := es'), now)
  {
    QuietStepsKeepPhonesInv(env.crypto, s.customers, c', s.changes);
    QuietStepsKeepRewindInv(s.customers.accounts, c'.accounts, s.phoneEvents);
    CustomersKeepInv(env, s, s.(customers := c', accountEvents := es'), now);
  }

  lemma CreateKeepsRecords(env: Env, s: State, uuid: Id, hash: string, sealed: Crypto.Bytes, appId: Id,
      assignmentId: Id, now: Time)
    requires RecordsInv(env, s, now) && Cust.CreateOutcome(s.customers, uuid, hash, assignmentId) == Cust.Done &&
        SealsHash(env.crypto, hash, sealed)
    ensures RecordsInv(env, s.(customers := Cust.WithCustomer(s.customers, uuid, hash, sealed,
        appId, assignmentId, now),
                               accountEvents := s.accountEvents + [AccountCreated(uuid,
                                   Cust.PendingOnboarding, Cust.Tier0)]), now)
  {
    CreateKeepsPhonesInv(env.crypto, s.customers, s.changes, uuid, hash, sealed, appId, assignmentId, now);
    TierTimeline.CreateKeepsTimelines(s.customers, uuid, hash, sealed, appId, assignmentId, now, now);
    TierTimeline.CreationsKeepIdsUnique(s.customers, uuid, hash, sealed, appId, assignmentId, now);
    CreationIsReplayed(s.customers, s.accountEvents, uuid, hash, sealed, appId, assignmentId, now);
    QuietStepsKeepRewindInv(s.customers.accounts,
        s.customers.accounts[uuid := Cust.NewAccount(uuid, hash, sealed, appId, now)], s.phoneEvents);
  }

  lemma CreateKeepsCooldowns(c: Cust.Store, uuid: Id, hash: string, sealed: Crypto.Bytes, appId: Id,
      assignmentId: Id, now: Time)
    ensures SameCooldowns(c.accounts, Cust.WithCustomer(c, uuid, hash, sealed, appId, assignmentId, now).accounts)
  {}

  lemma CreateKeepsInv(env: Env, s: State, uuid: Id, hash: string, sealed: Crypto.Bytes, appId: Id,
      assignmentId: Id, now: Time)
    requires Inv(env, s, now) && Cust.CreateOutcome(s.customers, uuid, hash, assignmentId) == Cust.Done &&
        SealsHash(env.crypto, hash, sealed)
    ensures Inv(env, s.(customers := Cust.WithCustomer(s.customers, uuid, hash, sealed, appId, assignmentId, now),
                        accountEvents := s.accountEvents + [AccountCreated(uuid, Cust.PendingOnboarding, Cust.Tier0)]),
                            now)
  {
    CreateKeepsRecords(env, s, uuid, hash, sealed, appId, assignmentId, now);
    CreateKeepsCooldowns(s.customers, uuid, hash, sealed, appId, assignmentId, now);
    CustomersKeepInv(env, s, s.(customers := Cust.WithCustomer(s.customers, uuid, hash, sealed,
        appId, assignmentId, now),
                                accountEvents := s.accountEvents + [AccountCreated(uuid,
                                    Cust.PendingOnboarding, Cust.Tier0)]), now);
  }

  lemma StateKeepsPhones(c: Cust.Store, k: TransitionKind, uuid: Id)
    requires Cust.ChangeStateOutcome(c, uuid, FromStates(k)) == Cust.Done
    ensures var c' := Cust.WithState(c, uuid, FromStates(k), ToState(k));
      && SamePhones(c.accounts, c'.accounts) && c'.phoneHashes == c.phoneHashes && c'.history == c.history
      && forall u :: u in c.accounts ==>
          Cust.GetTier(c'.accounts[u]) == Cust.GetTier(c.accounts[u]) &&
          c'.accounts[u].createdAt == c.accounts[u].createdAt
  {}

  lemma TransitionKeepsInv(env: Env, s: State, k: TransitionKind, uuid: Id, now: Time)
    requires Inv(env, s, now) && Cust.ChangeStateOutcome(s.customers, uuid, FromStates(k)) == Cust.Done
    ensures Inv(env, s.(customers := Cust.WithState(s.customers, uuid, FromStates(k), ToState(k)),
                        accountEvents := s.accountEvents + [StateChanged(uuid, k,
                            s.customers.accounts[uuid].state, ToState(k))]), now)
  {
    var c' := Cust.WithState(s.customers, uuid, FromStates(k), ToState(k));
    StateKeepsPhones(s.customers, k, uuid);
    TierTimeline.SameTiersKeepTimelines(s.customers, c', now, now);
    TransitionIsReplayed(s.customers, s.accountEvents, k, uuid);
    QuietWriteKeepsInv(env, s, c',
        s.accountEvents + [StateChanged(uuid, k, s.customers.accounts[uuid].state, ToState(k))], now);
  }

  lemma TierKeepsPhones(c: Cust.Store, uuid: Id, tier: Cust.Tier, reason: string, assignmentId: Id, now: Time)
    ensures var c' := Cust.WithTier(c, uuid, tier, reason, assignmentId, now);
      SamePhones(c.accounts, c'.accounts) && c'.phoneHashes == c.phoneHashes
  {}

  lemma TierKeepsInv(env: Env, s: State, uuid: Id, tier: Cust.Tier, reason: string, assignmentId: Id, now: Time)
    requires Inv(env, s, now) && Cust.SetTierOutcome(s.customers, uuid, assignmentId) == Cust.Done
    ensures Inv(env, s.(customers := Cust.WithTier(s.customers, uuid, tier, reason, assignmentId, now),
                        accountEvents := s.accountEvents + [TierChanged(uuid, s.customers.accounts[uuid].tier,
                            tier, reason)]), now)
  {
    var c' := Cust.WithTier(s.customers, uuid, tier, reason, assignmentId, now);
    TierKeepsPhones(s.customers, uuid, tier, reason, assignmentId, now);
    TierTimeline.SetTierKeepsTimelines(s.customers, uuid, tier, reason, assignmentId, now, now);
    TierTimeline.TierWritesKeepIdsUnique(s.customers, uuid, tier, reason, assignmentId, now);
    TierIsReplayed(s.customers, s.accountEvents, uuid, tier, reason, assignmentId, now);
    QuietWriteKeepsInv(env, s, c',
        s.accountEvents + [TierChanged(uuid, s.customers.accounts[uuid].tier, tier, reason)], now);
  }
}
