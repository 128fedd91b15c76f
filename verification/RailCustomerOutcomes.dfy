/**
 * What the requests about an account do to it, in the words of the wire: creation and re-link,
 * activation, suspension and reactivation, tiers; and that nothing else touches them.
 */
module RailCustomerOutcomes {
  import opened Domain
  import opened Rail
  import Cust = Customers
  import PC = PhoneChanges
  import Crypto = PhoneCrypto
  import PhoneNormalise
  import RailServe
  import RailHistory

  // Creation.

  /**
   * A new account at the beginning of its life, its index entry, its first tier and one event are
   * all that is added.
   */
  predicate CreatesAccount(s: State, s': State, uuid: Id, hash: string, sealed: seq<bv8>, appId: Id, assignmentId: Id,
      now: Time)
  {
    && uuid !in s.customers.accounts && hash !in s.customers.phoneHashes && uuid in s'.customers.accounts
    && var a := s'.customers.accounts[uuid];
    && s'.customers.accounts == s.customers.accounts[uuid := a]
    && a.uuid == uuid && a.state == Cust.PendingOnboarding && a.tier == Cust.Tier0 && a.riderClass == Cust.NoRider
    && a.phoneHash == hash && a.phoneEncrypted == sealed && a.cooldownUntil.None? && a.originAppId == appId
    && a.createdAt == now
    && s'.customers.phoneHashes == s.customers.phoneHashes[hash := uuid]
    && s'.customers.history == s.customers.history +
      [Cust.Assignment(assignmentId, uuid, Cust.Tier0, "rule_based_tier_0_default", now, None)]
    && s'.accountEvents == s.accountEvents + [AccountCreated(uuid, Cust.PendingOnboarding, Cust.Tier0)]
    && s' == s.(customers := s'.customers, accountEvents := s'.accountEvents)
  }

  /** The account the number is bound to was registered by this app. */
  predicate BoundByApp(s: State, hash: string, appId: Id) {
    exists u :: u in s.customers.accounts && s.customers.accounts[u].phoneHash == hash &&
      s.customers.accounts[u].originAppId == appId
  }

  /**
   * With consent and a well-formed number: a number bound to nobody makes a new account, a number
   * the same app registered is re-linked and changes nothing, any other one is refused. All
   * other refusals change nothing either.
   */
  lemma CreateSucceedsExactlyWhen(
      env: Env, s: State, phone: string, consented: bool, uuid: Id, appId: Id, assignmentId: Id,
      iv: Crypto.Bytes, now: Time)
    requires Cust.IndexAgrees(s.customers)
    ensures var r := CreateCustomer(env, s, phone, consented, uuid, appId, assignmentId, iv, now);
      var n := PhoneNormalise.Normalise(phone);
      var bound := n.Some? && env.crypto.hash(n.value) in s.customers.phoneHashes;
      && (r.reply == Ok(201) <==>
          && consented && n.Some? && !bound
          && uuid !in s.customers.accounts && !Cust.HasAssignment(s.customers.history, assignmentId))
      && (r.reply == Ok(201) ==>
          CreatesAccount(s, r.state, uuid, env.crypto.hash(n.value), env.crypto.seal(iv, n.value), appId,
                         assignmentId, now))
      && (r.reply == Ok(200) <==> consented && bound && BoundByApp(s, env.crypto.hash(n.value), appId))
      && (r.reply == Error(400, ValidationPhoneAlreadyRegistered) <==>
          consented && bound && !BoundByApp(s, env.crypto.hash(n.value), appId))
      && (r.reply == Error(400, ValidationConsentMissing) <==> !consented)
      && (r.reply == Error(400, ValidationPhoneInvalid) <==> consented && n.None?)
      && (r.reply != Ok(201) ==> r.state == s)
  {
    var n := PhoneNormalise.Normalise(phone);
    if n.Some? && env.crypto.hash(n.value) in s.customers.phoneHashes {
      var hash := env.crypto.hash(n.value);
      var holder := s.customers.phoneHashes[hash];
      assert s.customers.accounts[holder].phoneHash == hash;
      assert BoundByApp(s, hash, appId) <==> s.customers.accounts[holder].originAppId == appId;
    }
  }

  // States.

  /** Which request may move an account from where to where. */
  predicate Moves(k: TransitionKind, from: Cust.AccountState, to: Cust.AccountState) {
    match k
    case Activate => from == Cust.PendingOnboarding && to == Cust.Active
    case Suspend => from == Cust.Active && to == Cust.FrozenAml
    case Reactivate => (from == Cust.FrozenAml || from == Cust.PendingOnboarding) && to == Cust.Active
  }

  /**
   * A transition moves the account along the one arrow of its kind, and tells both ends; it is
   * refused exactly when there is no such arrow, and an activation of an active account is a repeat.
   */
  lemma TransitionSucceedsExactlyWhen(s: State, k: TransitionKind, uuid: Id)
    ensures var r := ChangeState(s, k, uuid);
      && (r.reply == Error(404, CustomerNotFound) <==> uuid !in s.customers.accounts)
      && (uuid in s.customers.accounts ==>
          var a := s.customers.accounts[uuid];
          var to := if k == Suspend then Cust.FrozenAml else Cust.Active;
          && (Moves(k, a.state, to) ==>
              && r.reply == Ok(200)
              && r.state.customers == s.customers.(accounts := s.customers.accounts[uuid := a.(state := to)])
              && r.state.accountEvents == s.accountEvents + [StateChanged(uuid, k, a.state, to)]
              && r.state == s.(customers := r.state.customers, accountEvents := r.state.accountEvents))
          && (!Moves(k, a.state, to) ==>
              r == Result(s, if k == Activate && a.state == Cust.Active then Ok(200)
                             else Error(409, StateInvalidForAction))))
      && (r.reply.Error? ==> r.state == s)
  {}

  // Tiers.

  /** The account has the tier from now on for that reason, and the event tells the tier it had. */
  ghost predicate SetsTier(s: State, s': State, uuid: Id, tier: Cust.Tier, reason: string, assignmentId: Id, now: Time)
    requires uuid in s.customers.accounts
  {
    var a := s.customers.accounts[uuid];
    && s'.customers.accounts == s.customers.accounts[uuid :=
        a.(tier := tier, tierAssignedAt := Some(now), tierReason := Some(reason))]
    && s'.customers.phoneHashes == s.customers.phoneHashes
    && |s'.customers.history| == |s.customers.history| + 1
    && s'.customers.history[|s.customers.history|] == Cust.Assignment(assignmentId, uuid, tier, reason, now, None)
    && s'.accountEvents == s.accountEvents + [TierChanged(uuid, a.tier, tier, reason)]
    && s' == s.(customers := s'.customers, accountEvents := s'.accountEvents)
  }

  lemma {:induction false} ClosingKeepsLength(h: seq<Cust.Assignment>, uuid: Id, now: Time)
    ensures |Cust.CloseFirstOpen(h, uuid, now)| == |h|
  {
    if h != [] { ClosingKeepsLength(h[1..], uuid, now); }
  }

  lemma OverrideSucceedsExactlyWhen(
      s: State, uuid: Id, tier: Cust.Tier, reason: string, assignmentId: Id, status: nat, now: Time)
    ensures var r := AssignTier(s, uuid, tier, reason, assignmentId, status, now);
      && (r.reply.Ok? <==>
          uuid in s.customers.accounts && !Cust.HasAssignment(s.customers.history, assignmentId))
      && (r.reply.Ok? ==> r.reply == Ok(status) && SetsTier(s, r.state, uuid, tier, reason, assignmentId, now))
      && (r.reply.Error? ==> r.state == s)
      && (r.reply == Error(404, CustomerNotFound) <==> uuid !in s.customers.accounts)
  {
    ClosingKeepsLength(s.customers.history, uuid, now);
  }

  /** A verified lookup promotes an account without a tier to the first, and answers 201 either way. */
  lemma IprsPromotesExactlyWhen(s: State, uuid: Id, refusal: Option<Reply>, assignmentId: Id, now: Time)
    ensures var r := IprsLookup(s, uuid, refusal, assignmentId, now);
      && (uuid !in s.customers.accounts ==> r == Result(s, Error(404, CustomerNotFound)))
      && (uuid in s.customers.accounts && refusal.Some? ==> r == Result(s, refusal.value))
      && (uuid in s.customers.accounts && refusal.None? ==>
          if s.customers.accounts[uuid].tier != Cust.Tier0 then r == Result(s, Ok(201))
          else if Cust.HasAssignment(s.customers.history, assignmentId) then
            r == Result(s, Error(500, InternalUnspecified))
          else
            r.reply == Ok(201) && SetsTier(s, r.state, uuid, Cust.Tier1, "iprs_verified", assignmentId, now))
  {
    OverrideSucceedsExactlyWhen(s, uuid, Cust.Tier1, IPRS_VERIFIED, assignmentId, 201, now);
  }

  /**
   * An approval promotes exactly an account without a tier, and only for a first-tier record; it
   * answers 200 either way.
   */
  lemma ApprovalPromotesExactlyWhen(
      s: State, uuid: Id, recordTier: Cust.Tier, refusal: Option<Reply>, assignmentId: Id, now: Time)
    ensures var r := ApproveKyc(s, uuid, recordTier, refusal, assignmentId, now);
      && (refusal.Some? ==> r == Result(s, refusal.value))
      && (refusal.None? ==>
          if uuid !in s.customers.accounts || s.customers.accounts[uuid].tier != Cust.Tier0 ||
            recordTier != Cust.Tier1 then r == Result(s, Ok(200))
          else if Cust.HasAssignment(s.customers.history, assignmentId) then
            r == Result(s, Error(500, InternalUnspecified))
          else
            r.reply == Ok(200) &&
            SetsTier(s, r.state, uuid, Cust.Tier1, "rule_based_tier_1_kyc_complete", assignmentId, now))
  {
    OverrideSucceedsExactlyWhen(s, uuid, Cust.Tier1, TIER_1_KYC_COMPLETE, assignmentId, 200, now);
  }

  // And nothing else.

  /** What the request may do to account `u`, before and after. */
  predicate Permitted(r: Request, u: Id, a: Cust.Account, a': Cust.Account) {
    && (a'.state != a.state ==> r.ReqChangeState? && r.uuid == u && Moves(r.kind, a.state, a'.state))
    && (a'.tier != a.tier ==>
        || (r.ReqTierOverride? && r.uuid == u && a'.tier == r.tier)
        || ((r.ReqIprs? || r.ReqApprove?) && r.uuid == u && r.refusal.None? && a.tier == Cust.Tier0 &&
            a'.tier == Cust.Tier1))
    && (a'.phoneHash != a.phoneHash || a'.cooldownUntil != a.cooldownUntil ==>
        || (r.ReqInitiate? && r.initiation.uuid == u && r.initiation.verificationMethod == PC.OtpToOldPhone)
        || (r.ReqConfirm? && r.uuid == u && r.matches))
    && a'.uuid == a.uuid && a'.createdAt == a.createdAt && a'.originAppId == a.originAppId
    && a'.riderClass == a.riderClass
  }

  predicate Kept(r: Request, s: State, s': State) {
    && (forall u :: u in s.customers.accounts ==>
        u in s'.customers.accounts && Permitted(r, u, s.customers.accounts[u], s'.customers.accounts[u]))
    && (forall u :: u in s'.customers.accounts && u !in s.customers.accounts ==>
        r.ReqCreate? && r.uuid == u && s'.customers.accounts[u].state == Cust.PendingOnboarding &&
        s'.customers.accounts[u].tier == Cust.Tier0)
  }

  /** The swap of one account's number, or no change. */
  predicate Rebinds(c: Cust.Store, c': Cust.Store, uuid: Id) {
    c' == c || (uuid in c.accounts && uuid in c'.accounts &&
      c'.accounts == c.accounts[uuid := c.accounts[uuid].(
        phoneHash := c'.accounts[uuid].phoneHash, phoneEncrypted := c'.accounts[uuid].phoneEncrypted,
        cooldownUntil := c'.accounts[uuid].cooldownUntil, lastChangeAt := c'.accounts[uuid].lastChangeAt)])
  }

  lemma SwappedRebinds(s: State, uuid: Id, changeId: Id, hash: string, sealed: Crypto.Bytes, m: PC.Method, jti: Id,
      status: nat, now: Time)
    ensures Rebinds(s.customers, Swapped(s, uuid, changeId, hash, sealed, m, jti, status, now).state.customers, uuid)
  {}

  lemma InitiateRebinds(env: Env, s: State, q: Initiation, now: Time)
    ensures var c' := Initiate(env, s, q, now).state.customers;
      Rebinds(s.customers, c', q.uuid) && (c' != s.customers ==> q.verificationMethod == PC.OtpToOldPhone)
  {
    if q.token.Some? {
      var (spent, v) := WithStepupSpent(env, s, q, now);
      if v.Valid? {
        RailServe.AuthorisedOutcome(env, spent, q, v.jti, now);
      }
    }
  }

  lemma ConfirmRebinds(s: State, uuid: Id, id: Id, matches: bool, now: Time)
    ensures var c' := Confirm(s, uuid, id, matches, now).state.customers;
      Rebinds(s.customers, c', uuid) && (c' != s.customers ==> matches)
  {
    if id in s.changes.rows {
      var change := s.changes.rows[id];
      if change.info.challengeNewId.Some? && change.info.challengeNewId.value in s.challenges {
        RailServe.AnsweredOutcome(s, change, change.info.challengeNewId.value, matches, now);
      }
    }
  }

  lemma PhoneRequestsKeep(env: Env, s: State, r: Request, now: Time)
    requires r.ReqInitiate? || r.ReqConfirm?
    ensures Kept(r, s, Serve(env, s, r, now).state)
  {
    if r.ReqInitiate? {
      InitiateRebinds(env, s, r.initiation, now);
    } else {
      ConfirmRebinds(s, r.uuid, r.changeId, r.matches, now);
    }
  }

  lemma TransitionKeeps(env: Env, s: State, k: TransitionKind, uuid: Id, now: Time)
    ensures Kept(ReqChangeState(k, uuid), s, ChangeState(s, k, uuid).state)
  {
    TransitionSucceedsExactlyWhen(s, k, uuid);
  }

  /** A tier change of one account, or none. */
  lemma TierShape(s: State, uuid: Id, tier: Cust.Tier, reason: string, assignmentId: Id, status: nat, now: Time)
    ensures var s' := AssignTier(s, uuid, tier, reason, assignmentId, status, now).state;
      s'.customers.accounts == s.customers.accounts ||
      (uuid in s.customers.accounts && s'.customers.accounts == s.customers.accounts[uuid :=
        s.customers.accounts[uuid].(tier := tier, tierAssignedAt := Some(now), tierReason := Some(reason))])
  {}

  lemma OverrideKeeps(env: Env, s: State, r: Request, now: Time)
    requires r.ReqTierOverride?
    ensures Kept(r, s, Serve(env, s, r, now).state)
  {
    TierShape(s, r.uuid, r.tier, r.reason, r.assignmentId, 200, now);
  }

  lemma IprsKeeps(env: Env, s: State, r: Request, now: Time)
    requires r.ReqIprs?
    ensures Kept(r, s, Serve(env, s, r, now).state)
  {
    TierShape(s, r.uuid, Cust.Tier1, IPRS_VERIFIED, r.assignmentId, 201, now);
  }

  lemma ApprovalKeeps(env: Env, s: State, r: Request, now: Time)
    requires r.ReqApprove?
    ensures Kept(r, s, Serve(env, s, r, now).state)
  {
    TierShape(s, r.uuid, Cust.Tier1, TIER_1_KYC_COMPLETE, r.assignmentId, 200, now);
  }

  /** A new account, or none. */
  lemma CreationShape(
      env: Env, s: State, phone: string, consented: bool, uuid: Id, appId: Id, assignmentId: Id,
      iv: Crypto.Bytes, now: Time)
    ensures var c, c' := s.customers,
        CreateCustomer(env, s, phone, consented, uuid, appId, assignmentId, iv, now).state.customers;
      c' == c || (uuid !in c.accounts && uuid in c'.accounts && c'.accounts == c.accounts[uuid := c'.accounts[uuid]] &&
        c'.accounts[uuid].state == Cust.PendingOnboarding && c'.accounts[uuid].tier == Cust.Tier0)
  {}

  lemma CreationKeeps(env: Env, s: State, r: Request, now: Time)
    requires r.ReqCreate?
    ensures Kept(r, s, Serve(env, s, r, now).state)
  {
    CreationShape(env, s, r.phone, r.consented, r.uuid, r.appId, r.assignmentId, r.iv, now);
  }

  lemma AccountRequestsKeep(env: Env, s: State, r: Request, now: Time)
    requires RailHistory.IsCustomerRequest(r)
    ensures Kept(r, s, Serve(env, s, r, now).state)
  {
    if r.ReqCreate? {
      CreationKeeps(env, s, r, now);
    } else if r.ReqChangeState? {
      TransitionKeeps(env, s, r.kind, r.uuid, now);
    } else if r.ReqIprs? {
      IprsKeeps(env, s, r, now);
    } else if r.ReqApprove? {
      ApprovalKeeps(env, s, r, now);
    } else {
      OverrideKeeps(env, s, r, now);
    }
  }

  lemma TokenRequestsKeep(env: Env, s: State, r: Request, now: Time)
    requires !RailHistory.IsCustomerRequest(r) && !r.ReqInitiate? && !r.ReqConfirm?
    ensures Kept(r, s, Serve(env, s, r, now).state)
  {}

  /**
   * No request drops an account. A state changes only by a transition request for it along an
   * arrow of its kind, a tier only by an override or a first promotion, a number and its cooldown
   * only by an initiate or a correct confirm, and accounts appear only by creation, as new ones.
   */
  lemma OnlyTheirRequestsTouchAccounts(env: Env, s: State, r: Request, now: Time)
    ensures Kept(r, s, Serve(env, s, r, now).state)
  {
    if RailHistory.IsCustomerRequest(r) {
      AccountRequestsKeep(env, s, r, now);
    } else if r.ReqInitiate? || r.ReqConfirm? {
      PhoneRequestsKeep(env, s, r, now);
    } else {
      TokenRequestsKeep(env, s, r, now);
    }
  }

  /** In every run accounts only ever wait for onboarding, are active, or are frozen by an operator. */
  lemma {:induction false} AccountsStayInThreeStates(env: Env, ticks: seq<Tick>, uuid: Id)
    requires uuid in After(env, ticks).customers.accounts
    ensures After(env, ticks).customers.accounts[uuid].state in {Cust.PendingOnboarding, Cust.Active, Cust.FrozenAml}
  {
    var n := |ticks| - 1;
    var before := After(env, ticks[..n]);
    OnlyTheirRequestsTouchAccounts(env, before, ticks[n].request, ticks[n].now);
    if uuid in before.customers.accounts {
      AccountsStayInThreeStates(env, ticks[..n], uuid);
    }
  }

  /** A run from `n` on without an operator's reactivation of the account leaves it frozen. */
  lemma {:induction false} FrozenUntilReactivated(env: Env, ticks: seq<Tick>, n: nat, uuid: Id)
    requires n <= |ticks| && uuid in After(env, ticks[..n]).customers.accounts
    requires After(env, ticks[..n]).customers.accounts[uuid].state == Cust.FrozenAml
    requires forall i :: n <= i < |ticks| ==> ticks[i].request != ReqChangeState(Reactivate, uuid)
    ensures uuid in After(env, ticks).customers.accounts
    ensures After(env, ticks).customers.accounts[uuid].state == Cust.FrozenAml
  {
    if n == |ticks| {
      assert ticks[..n] == ticks;
    } else {
      var m := |ticks| - 1;
      assert ticks[..m][..n] == ticks[..n];
      FrozenUntilReactivated(env, ticks[..m], n, uuid);
      StaysFrozen(env, After(env, ticks[..m]), ticks[m].request, ticks[m].now, uuid);
    }
  }

  lemma StaysFrozen(env: Env, s: State, r: Request, now: Time, uuid: Id)
    requires uuid in s.customers.accounts && s.customers.accounts[uuid].state == Cust.FrozenAml
    requires r != ReqChangeState(Reactivate, uuid)
    ensures var s' := Serve(env, s, r, now).state;
      uuid in s'.customers.accounts && s'.customers.accounts[uuid].state == Cust.FrozenAml
  {
    var s' := Serve(env, s, r, now).state;
    OnlyTheirRequestsTouchAccounts(env, s, r, now);
    assert Permitted(r, uuid, s.customers.accounts[uuid], s'.customers.accounts[uuid]);
  }
}
