/**
 * The two levels of atomicity agree: serving one request at a time is one of the
 * interleavings, so whatever holds in every interleaving holds in every run of atomic
 * handlers.
 */
module RailRefinement {
  import opened Domain
  import opened Rail
  import opened RailAuthority
  import opened RailInvariants
  import AC = AuthChallenges
  import SU = StepUpTokens
  import PC = PhoneChanges
  import Cust = Customers
  import DA = DelegatedAuthority
  import Req = StepupRequests
  import Crypto = PhoneCrypto
  import PhoneNormalise
  import IL = Interleaving
  import InterleavingSafety
  import SV = StepupVerifier
  import RailServe
  import RailHistory
  import RailTheorems

  /** The interleaved state holds the same rows. */
  predicate Shows(i: IL.State, s: State) {
    i.challenges == s.challenges && i.tokens == s.tokens && i.changes == s.changes && i.signings == s.signings
  }

  function Then(i: IL.State, es: seq<IL.Event>): IL.State {
    if es == [] then i else IL.Apply(Then(i, es[..|es| - 1]), es[|es| - 1])
  }

  lemma ThenOne(i: IL.State, es: seq<IL.Event>, e: IL.Event)
    ensures Then(i, es + [e]) == IL.Apply(Then(i, es), e)
  {
    assert (es + [e])[..|es|] == es;
  }

  lemma {:induction false} RunThen(before: seq<IL.Event>, es: seq<IL.Event>)
    ensures IL.Run(before + es) == Then(IL.Run(before), es)
  {
    if es == [] {
      assert before + es == before;
    } else {
      var n := |es| - 1;
      RunThen(before, es[..n]);
      assert before + es == (before + es[..n]) + [es[n]];
      IL.RunExtends(before + es[..n], es[n]);
    }
  }

  lemma Steps1(i: IL.State, a: IL.Event)
    ensures Then(i, [a]) == IL.Apply(i, a)
  {
    ThenOne(i, [], a);
    assert [] + [a] == [a];
  }

  lemma Steps2(i: IL.State, a: IL.Event, b: IL.Event)
    ensures Then(i, [a, b]) == IL.Apply(IL.Apply(i, a), b)
  {
    Steps1(i, a);
    ThenOne(i, [a], b);
    assert [a] + [b] == [a, b];
  }

  lemma Steps3(i: IL.State, a: IL.Event, b: IL.Event, c: IL.Event)
    ensures Then(i, [a, b, c]) == IL.Apply(IL.Apply(IL.Apply(i, a), b), c)
  {
    Steps2(i, a, b);
    ThenOne(i, [a, b], c);
    assert [a, b] + [c] == [a, b, c];
  }

  /** Only the process of this request is added. */
  predicate OnlyAdds(i: IL.State, i': IL.State, pid: IL.Pid) {
    i'.procs.Keys <= i.procs.Keys + {pid}
  }

  predicate AllMine(es: seq<IL.Event>, pid: IL.Pid) {
    forall k :: 0 <= k < |es| ==> InterleavingSafety.PidOf(es[k]) in {None, Some(pid)}
  }

  lemma {:induction false} ThenAdds(i: IL.State, es: seq<IL.Event>, pid: IL.Pid)
    requires AllMine(es, pid)
    ensures OnlyAdds(i, Then(i, es), pid)
  {
    if es != [] {
      ThenAdds(i, es[..|es| - 1], pid);
      assert InterleavingSafety.PidOf(es[|es| - 1]) in {None, Some(pid)};
    }
  }

  lemma {:induction false} ThenAppend(i: IL.State, a: seq<IL.Event>, b: seq<IL.Event>)
    ensures Then(i, a + b) == Then(Then(i, a), b)
  {
    if b == [] {
      assert a + b == a;
    } else {
      var n := |b| - 1;
      ThenAppend(i, a, b[..n]);
      assert a + b == (a + b[..n]) + [b[n]];
      ThenOne(i, a + b[..n], b[n]);
    }
  }

  // The repository calls of each handler, in the order it makes them.

  function VerifyCalls(id: Id, response: AC.FactorResponse, now: Time, pid: IL.Pid): (es: seq<IL.Event>)
    ensures AllMine(es, pid)
  {
    [IL.ReadForStepup(pid, id, response, now), IL.Record(pid), IL.Mint(pid, now)]
  }

  function LoginCalls(id: Id, response: AC.FactorResponse, now: Time, pid: IL.Pid): (es: seq<IL.Event>)
    ensures AllMine(es, pid)
  {
    [IL.ReadForLogin(pid, id, response, now), IL.Record(pid)]
  }

  /** The ledger row of a signing that goes through. */
  function SigningRow(env: Env, kid: string, claims: DA.ClaimSet, now: Time): Option<SU.Signing> {
    match DA.SignResult(env.daKeys, env.issuer, env.tolerance, kid, claims, now)
    case Refused(_) => None
    case Signed(_, signedAt, expiresAt) =>
      Some(SU.Signing(claims.jti, claims.sub, claims.agentId, claims.stepUpJti, claims.scopes, signedAt, expiresAt))
  }

  function LedgerCalls(env: Env, kid: string, claims: DA.ClaimSet, now: Time, pid: IL.Pid): (es: seq<IL.Event>)
    ensures AllMine(es, pid)
  {
    var row := SigningRow(env, kid, claims, now);
    if row.None? then []
    else if claims.stepUpJti.Some? then [IL.WriteSigning(pid, row.value)]
    else [IL.SignWithoutStepup(row.value)]
  }

  /**
   * findByJti, markConsumed if the token is this account's, and the ledger row if it was unspent
   * and the signer agrees.
   */
  function SignCalls(env: Env, s: State, appId: Id, kid: string, claims: DA.ClaimSet, now: Time,
      pid: IL.Pid): (es: seq<IL.Event>)
    ensures AllMine(es, pid)
  {
    if appId != env.helpanAiAppId || claims.sub !in s.customers.accounts then []
    else if claims.stepUpJti.None? then LedgerCalls(env, kid, claims, now, pid)
    else
      var jti := claims.stepUpJti.value;
      var find := [IL.ReadForSigning(pid, jti, claims.sub)];
      if jti !in s.tokens || s.tokens[jti].info.accountUuid != Some(claims.sub) then find
      else if !SU.Unspent(s.tokens, jti) then find + [IL.SpendForSigning(pid, now)]
      else find + [IL.SpendForSigning(pid, now)] + LedgerCalls(env, kid, claims, now, pid)
  }

  function SupersedeCalls(p: PC.Table, accountId: Id, now: Time): seq<IL.Event> {
    var existing := PC.FindActive(p, accountId);
    if existing.Some? then [IL.CancelChange(existing.value, PC.SupersededByNewInitiate, now)] else []
  }

  /** Create and complete, and cancel when the swap finds no account; a rejected insert ends the handler. */
  function AtOnceCalls(s: State, q: Initiation, jti: Id, hash: string, sealed: Crypto.Bytes, now: Time,
      pid: IL.Pid): (es: seq<IL.Event>)
    ensures AllMine(es, pid)
  {
    var create := [IL.WriteChange(pid, AtOnceInfo(q, jti, hash, sealed, now), PC.Completed, now)];
    if q.changeId in s.changes.rows then create
    else if Cust.SwapOutcome(s.customers, q.uuid, hash) == Cust.NotFound then
      create + [IL.CompleteChange(q.changeId, now), IL.CancelChange(q.changeId, PC.PhoneRecordVanished, now)]
    else create + [IL.CompleteChange(q.changeId, now)]
  }

  /** The challenge, then the change; a rejected insert ends the handler. */
  function AwaitCalls(s: State, q: Initiation, jti: Id, hash: string, sealed: Crypto.Bytes, now: Time,
      pid: IL.Pid): (es: seq<IL.Event>)
    ensures AllMine(es, pid)
  {
    var create := [IL.CreateChallenge(NewPhoneChallenge(q, now), now)];
    if q.challengeId in s.challenges then create
    else create + [IL.WriteChange(pid, AwaitingInfo(q, jti, hash, sealed, now), PC.CooldownActive, now)]
  }

  function AuthorisedCalls(env: Env, s: State, q: Initiation, jti: Id, now: Time, pid: IL.Pid): (es: seq<IL.Event>)
    ensures AllMine(es, pid)
  {
    if !RailServe.PassesGates(env, s, q, now) then []
    else
      var n := PhoneNormalise.Normalise(q.newPhone).value;
      var superseded := s.(changes := PC.WithExistingCancelled(s.changes, q.uuid, now));
      var hash, sealed := env.crypto.hash(n), env.crypto.seal(q.iv, n);
      SupersedeCalls(s.changes, q.uuid, now)
      + if q.verificationMethod == PC.OtpToOldPhone then AtOnceCalls(superseded, q, jti, hash, sealed, now, pid)
        else AwaitCalls(superseded, q, jti, hash, sealed, now, pid)
  }

  /** markConsumed for a token whose claims pass, then the rest for one that was unspent. */
  function InitiateCalls(env: Env, s: State, q: Initiation, now: Time, pid: IL.Pid): (es: seq<IL.Event>)
    ensures AllMine(es, pid)
  {
    if q.token.None? then []
    else
      var want := SV.Expectation(IDENTITI_AUDIENCE, q.uuid, PHONE_CHANGE_OPERATION_KIND);
      var seen := SV.Inspected(env.verifierKeys, env.issuer, q.token.value, want, now);
      if !seen.Valid? then []
      else
        var spend := [IL.SpendForChange(pid, seen.jti, q.uuid, now)];
        if !SU.Unspent(s.tokens, seen.jti) then spend
        else spend + AuthorisedCalls(env, s.(tokens := SU.WithConsumed(s.tokens, seen.jti, now)), q, seen.jti, now, pid)
  }

  /** What confirm does to the change row after the challenge has been dealt with. */
  function Closing(s: State, change: PC.Change, cid: Id, matches: bool, now: Time): seq<IL.Event>
    requires cid in s.challenges
  {
    var c, id := s.challenges[cid], change.info.id;
    match AC.ConfirmDecision(c, matches, now)
    case Refuse(_) =>
      [IL.CancelChange(id, if c.info.otpHash.None? then PC.ChallengeMissing else PC.ChallengeNotPending(c.status), now)]
    case RecordAndRefuse(next, _) =>
      if next.status == AC.Failed then [IL.CancelChange(id, PC.MaxOtpAttempts, now)] else []
    case RecordAndProceed(_) =>
      match Cust.SwapOutcome(s.customers, change.info.accountId, change.info.newPhoneHash)
      case NotFound => [IL.CancelChange(id, PC.PhoneRecordVanished, now)]
      case Done => [IL.CompleteChange(id, now)]
      case _ => []
  }

  function ConfirmCalls(s: State, uuid: Id, changeId: Id, matches: bool, now: Time, pid: IL.Pid): (es: seq<IL.Event>)
    ensures AllMine(es, pid)
  {
    if changeId !in s.changes.rows || s.changes.rows[changeId].info.accountId != uuid then []
    else
      var change := s.changes.rows[changeId];
      if change.state != PC.CooldownActive then []
      else if change.info.expiresAt <= now then [IL.CancelChange(changeId, PC.AwaitingConfirmationExpired, now)]
      else if change.info.challengeNewId.None? then []
      else if change.info.challengeNewId.value !in s.challenges then
        [IL.CancelChange(changeId, PC.ChallengeMissing, now)]
      else
        var cid := change.info.challengeNewId.value;
        [IL.ReadForConfirm(pid, cid, matches, now), IL.Record(pid)] + Closing(s, change, cid, matches, now)
  }

  function StepupChallengeCalls(
      s: State, q: Req.StepupRequest, operatorRefusal: Option<Reply>, id: Id, appId: Id, secret: string,
      now: Time): seq<IL.Event>
  {
    if StepupRefusal(s, q, operatorRefusal).Some? then []
    else [IL.CreateChallenge(Req.StepupInfo(q, id, appId, secret, now), now)]
  }

  function AuthChallengeCalls(
      env: Env, s: State, phone: string, factor: AC.Factor, purpose: AC.Purpose, id: Id, appId: Id, secret: string,
      now: Time): seq<IL.Event>
  {
    var normalised := PhoneNormalise.Normalise(phone);
    if !RequestablePurpose(purpose) || factor != AC.PhoneOtp || normalised.None?
       || env.crypto.hash(normalised.value) !in s.customers.phoneHashes then []
    else
      var accountId := s.customers.phoneHashes[env.crypto.hash(normalised.value)];
      [IL.CreateChallenge(LoginInfo(accountId, purpose, id, appId, secret, now), now)]
  }

  /** The calls request `r` makes to the stores of challenges, tokens, changes and signings, as process `pid`. */
  function CallsOf(env: Env, s: State, r: Request, now: Time, pid: IL.Pid): (es: seq<IL.Event>)
    ensures AllMine(es, pid)
  {
    match r
    case ReqStepupChallenge(q, operatorRefusal, id, appId, secret) =>
      StepupChallengeCalls(s, q, operatorRefusal, id, appId, secret, now)
    case ReqAuthChallenge(phone, factor, purpose, id, appId, secret) =>
      AuthChallengeCalls(env, s, phone, factor, purpose, id, appId, secret, now)
    case ReqStepupVerify(id, response) => VerifyCalls(id, response, now, pid)
    case ReqValidate(_, _) => [IL.Inspect(pid)]
    case ReqCustomerToken(id, response, _, _) => LoginCalls(id, response, now, pid)
    case ReqSign(appId, kid, claims) => SignCalls(env, s, appId, kid, claims, now, pid)
    case ReqInitiate(q) => InitiateCalls(env, s, q, now, pid)
    case ReqConfirm(uuid, changeId, matches) => ConfirmCalls(s, uuid, changeId, matches, now, pid)
    case _ => []
  }

  // Each list of calls ends in the rows of the atomic step.

  /** A read, then the attempt it decided on: the rows afterwards, and what the process holds. */
  lemma ReadAndRecord(i: IL.State, pid: IL.Pid, read: IL.Event, cid: Id, d: AC.Decision, mint: bool)
    requires ChallengesOk(i.challenges) && pid !in i.procs && (cid in i.challenges || d.Refuse?)
    requires IL.Apply(i, read) == i.(procs := i.procs[pid := IL.AfterRead(i, cid, d, mint)])
    ensures var i' := IL.Apply(IL.Apply(i, read), IL.Record(pid));
      && i'.challenges == (if d.Refuse? then i.challenges else AC.WithAttempt(i.challenges, cid, d.next))
      && i'.tokens == i.tokens && i'.changes == i.changes && i'.signings == i.signings && pid in i'.procs
      && i'.procs[pid] == if d.RecordAndProceed? && mint then IL.Minting(i.challenges[cid].info) else IL.Finished
  {}

  lemma VerifySteps(env: Env, s: State, id: Id, response: AC.FactorResponse, now: Time, i: IL.State, pid: IL.Pid)
    requires ChallengesOk(s.challenges) && TokensOk(s.challenges, s.tokens, s.answered) &&
        Shows(i, s) && pid !in i.procs
    ensures Shows(Then(i, VerifyCalls(id, response, now, pid)), AnswerStepup(env, s, id, response, now).state)
  {
    Steps3(i, IL.ReadForStepup(pid, id, response, now), IL.Record(pid), IL.Mint(pid, now));
    assert IL.Lookup(i, id) == Lookup(s.challenges, id);
    var d := AC.StepupDecision(Lookup(s.challenges, id), response, now);
    RailServe.VerifyOutcome(env, s, id, response, now);
    ReadAndRecord(i, pid, IL.ReadForStepup(pid, id, response, now), id, d, true);
    assert id in s.tokens ==> MintedFrom(s.challenges, s.answered, id, s.tokens[id]);
  }

  lemma LoginSteps(env: Env, s: State, id: Id, response: AC.FactorResponse, jti: Id, audience: string, now: Time,
      i: IL.State, pid: IL.Pid)
    requires ChallengesOk(s.challenges) && Shows(i, s) && pid !in i.procs
    ensures Shows(Then(i, LoginCalls(id, response, now, pid)),
        CustomerToken(env, s, id, response, jti, audience, now).state)
  {
    Steps2(i, IL.ReadForLogin(pid, id, response, now), IL.Record(pid));
    assert IL.Lookup(i, id) == Lookup(s.challenges, id);
    var d := AC.LoginDecision(Lookup(s.challenges, id), response, now);
    var t := RailServe.LoginOutcome(env, s, id, response, jti, audience, now);
    ReadAndRecord(i, pid, IL.ReadForLogin(pid, id, response, now), id, d, false);
  }

  lemma SigningOutcome(env: Env, s: State, kid: string, claims: DA.ClaimSet, now: Time)
    ensures var s', row := SignAndRecord(env, s, kid, claims, now).state, SigningRow(env, kid, claims, now);
      && s'.challenges == s.challenges && s'.tokens == s.tokens && s'.changes == s.changes
      && s'.signings == (if row.Some? then SU.WithSigning(s.signings, row.value) else s.signings)
      && (row.Some? ==> row.value.stepUpJti == claims.stepUpJti && row.value.accountUuid == claims.sub)
  {}

  /** The process holds spent token `jti` of this account, for this use. */
  predicate Holds(i: IL.State, pid: IL.Pid, jti: Id, accountId: Id, use: IL.Use) {
    pid in i.procs && i.procs[pid] == IL.Authorised(jti, accountId, use)
  }

  lemma LedgerSteps(env: Env, s: State, kid: string, claims: DA.ClaimSet, now: Time, i: IL.State, pid: IL.Pid)
    requires Shows(i, s)
    requires claims.stepUpJti.Some? ==> Holds(i, pid, claims.stepUpJti.value, claims.sub, IL.ForSigning)
    ensures Shows(Then(i, LedgerCalls(env, kid, claims, now, pid)), SignAndRecord(env, s, kid, claims, now).state)
  {
    SigningOutcome(env, s, kid, claims, now);
    var es := LedgerCalls(env, kid, claims, now, pid);
    if es != [] {
      Steps1(i, es[0]);
    }
  }

  lemma SignSteps(env: Env, s: State, appId: Id, kid: string, claims: DA.ClaimSet, now: Time, i: IL.State, pid: IL.Pid)
    requires Shows(i, s) && pid !in i.procs
    ensures Shows(Then(i, SignCalls(env, s, appId, kid, claims, now, pid)),
        InternalSign(env, s, appId, kid, claims, now).state)
  {
    if appId == env.helpanAiAppId && claims.sub in s.customers.accounts {
      if claims.stepUpJti.None? {
        LedgerSteps(env, s, kid, claims, now, i, pid);
      } else {
        var jti := claims.stepUpJti.value;
        var find, spend := IL.ReadForSigning(pid, jti, claims.sub), IL.SpendForSigning(pid, now);
        Steps1(i, find);
        Steps2(i, find, spend);
        assert [find] + [spend] == [find, spend];
        if SU.Unspent(s.tokens, jti) && s.tokens[jti].info.accountUuid == Some(claims.sub) {
          LedgerSteps(env, s.(tokens := SU.WithConsumed(s.tokens, jti, now)), kid, claims, now,
              Then(i, [find, spend]), pid);
          ThenAppend(i, [find, spend], LedgerCalls(env, kid, claims, now, pid));
        }
      }
    }
  }

  // Phone changes.

  /** A row written as completed stays as written: neither `complete` nor `cancel` touches it. */
  lemma AtOnceRows(s: State, q: Initiation, jti: Id, hash: string, sealed: Crypto.Bytes, now: Time)
    ensures var s' := ChangeAtOnce(s, q, jti, hash, sealed, now).state;
      var written := PC.WithChange(s.changes, AtOnceInfo(q, jti, hash, sealed, now), PC.Completed, now);
      && s'.changes == written && s'.challenges == s.challenges && s'.tokens == s.tokens && s'.signings == s.signings
      && (q.changeId !in s.changes.rows ==>
          PC.WithCompleted(written, q.changeId, now) == written &&
              PC.WithCancelled(written, q.changeId, PC.PhoneRecordVanished, now) == written)
  {}

  lemma AtOnceSteps(s: State, q: Initiation, jti: Id, hash: string, sealed: Crypto.Bytes, now: Time,
      i: IL.State, pid: IL.Pid)
    requires Shows(i, s) && Holds(i, pid, jti, q.uuid, IL.ForChange)
    ensures Shows(Then(i, AtOnceCalls(s, q, jti, hash, sealed, now, pid)),
        ChangeAtOnce(s, q, jti, hash, sealed, now).state)
  {
    AtOnceRows(s, q, jti, hash, sealed, now);
    var write := IL.WriteChange(pid, AtOnceInfo(q, jti, hash, sealed, now), PC.Completed, now);
    var complete := IL.CompleteChange(q.changeId, now);
    var cancel := IL.CancelChange(q.changeId, PC.PhoneRecordVanished, now);
    Steps1(i, write);
    Steps2(i, write, complete);
    Steps3(i, write, complete, cancel);
    assert [write] + [complete] == [write, complete] && [write] + [complete, cancel] == [write, complete, cancel];
  }

  lemma AwaitSteps(s: State, q: Initiation, jti: Id, hash: string, sealed: Crypto.Bytes, now: Time,
      i: IL.State, pid: IL.Pid)
    requires Shows(i, s) && Holds(i, pid, jti, q.uuid, IL.ForChange)
    ensures Shows(Then(i, AwaitCalls(s, q, jti, hash, sealed, now, pid)),
        AwaitConfirmation(s, q, jti, hash, sealed, now).state)
  {
    var create := IL.CreateChallenge(NewPhoneChallenge(q, now), now);
    var write := IL.WriteChange(pid, AwaitingInfo(q, jti, hash, sealed, now), PC.CooldownActive, now);
    assert Req.ForNewPhone(NewPhoneChallenge(q, now));
    Steps1(i, create);
    Steps2(i, create, write);
    assert [create] + [write] == [create, write];
  }

  lemma SupersedeSteps(i: IL.State, accountId: Id, now: Time)
    ensures Then(i, SupersedeCalls(i.changes, accountId,
        now)) == i.(changes := PC.WithExistingCancelled(i.changes, accountId, now))
  {
    var es := SupersedeCalls(i.changes, accountId, now);
    if es != [] {
      Steps1(i, es[0]);
    }
  }

  lemma AuthorisedSteps(env: Env, s: State, q: Initiation, jti: Id, now: Time, i: IL.State, pid: IL.Pid)
    requires Shows(i, s) && Holds(i, pid, jti, q.uuid, IL.ForChange)
    ensures Shows(Then(i, AuthorisedCalls(env, s, q, jti, now, pid)), Authorised(env, s, q, jti, now).state)
  {
    RailServe.AuthorisedOutcome(env, s, q, jti, now);
    if RailServe.PassesGates(env, s, q, now) {
      var n := PhoneNormalise.Normalise(q.newPhone).value;
      var superseded := s.(changes := PC.WithExistingCancelled(s.changes, q.uuid, now));
      var hash, sealed := env.crypto.hash(n), env.crypto.seal(q.iv, n);
      var first := SupersedeCalls(s.changes, q.uuid, now);
      SupersedeSteps(i, q.uuid, now);
      if q.verificationMethod == PC.OtpToOldPhone {
        AtOnceSteps(superseded, q, jti, hash, sealed, now, Then(i, first), pid);
        ThenAppend(i, first, AtOnceCalls(superseded, q, jti, hash, sealed, now, pid));
      } else {
        AwaitSteps(superseded, q, jti, hash, sealed, now, Then(i, first), pid);
        ThenAppend(i, first, AwaitCalls(superseded, q, jti, hash, sealed, now, pid));
      }
    }
  }

  lemma InitiateSteps(env: Env, s: State, q: Initiation, now: Time, i: IL.State, pid: IL.Pid)
    requires ChallengesOk(s.challenges) && TokensOk(s.challenges, s.tokens, s.answered) &&
        IssuedOk(env.issuer, s.tokens, s.issued)
    requires q.token.Some? ==> Presentable(env, s, q.token.value)
    requires Shows(i, s) && pid !in i.procs
    ensures Shows(Then(i, InitiateCalls(env, s, q, now, pid)), Initiate(env, s, q, now).state)
  {
    if q.token.Some? {
      var (spent, v) := WithStepupSpent(env, s, q, now);
      var want := SV.Expectation(IDENTITI_AUDIENCE, q.uuid, PHONE_CHANGE_OPERATION_KIND);
      var seen := SV.Inspected(env.verifierKeys, env.issuer, q.token.value, want, now);
      if seen.Valid? {
        var spend := IL.SpendForChange(pid, seen.jti, q.uuid, now);
        Steps1(i, spend);
        if v.Valid? {
          AcceptedTokensAreBacked(env, s, q, now);
          AuthorisedSteps(env, spent, q, v.jti, now, Then(i, [spend]), pid);
          ThenAppend(i, [spend], AuthorisedCalls(env, spent, q, v.jti, now, pid));
        }
      }
    }
  }

  /** The table after the closing call, if there is one. */
  function Closed(p: PC.Table, closing: seq<IL.Event>): PC.Table {
    if closing == [] then p
    else
      match closing[0]
      case CancelChange(id, reason, at) => PC.WithCancelled(p, id, reason, at)
      case CompleteChange(id, at) => PC.WithCompleted(p, id, at)
      case _ => p
  }

  /** The rows after confirm, in terms of the closing call. */
  lemma ClosingOutcome(s: State, change: PC.Change, cid: Id, matches: bool, now: Time)
    requires cid in s.challenges
    ensures var d, s' := AC.ConfirmDecision(s.challenges[cid], matches, now),
        Answered(s, change, cid, matches, now).state;
      && s'.challenges == (if d.Refuse? then s.challenges else AC.WithAttempt(s.challenges, cid, d.next))
      && s'.tokens == s.tokens && s'.signings == s.signings
      && s'.changes == Closed(s.changes, Closing(s, change, cid, matches, now))
  {}

  lemma ClosingSteps(i: IL.State, s: State, change: PC.Change, cid: Id, matches: bool, now: Time)
    requires cid in s.challenges
    ensures var closing := Closing(s, change, cid, matches, now);
      Then(i, closing) == i.(changes := Closed(i.changes, closing))
  {
    var closing := Closing(s, change, cid, matches, now);
    if closing != [] {
      Steps1(i, closing[0]);
    }
  }

  lemma AnsweredSteps(s: State, change: PC.Change, cid: Id, matches: bool, now: Time, i: IL.State, pid: IL.Pid)
    requires ChallengesOk(s.challenges) && Shows(i, s) && pid !in i.procs && cid in s.challenges
    ensures var calls := [IL.ReadForConfirm(pid, cid, matches, now), IL.Record(pid)] + Closing(s,
        change, cid, matches, now);
      Shows(Then(i, calls), Answered(s, change, cid, matches, now).state)
  {
    var read, record := IL.ReadForConfirm(pid, cid, matches, now), IL.Record(pid);
    ReadAndRecord(i, pid, read, cid, AC.ConfirmDecision(s.challenges[cid], matches, now), false);
    ClosingOutcome(s, change, cid, matches, now);
    Steps2(i, read, record);
    ClosingSteps(Then(i, [read, record]), s, change, cid, matches, now);
    ThenAppend(i, [read, record], Closing(s, change, cid, matches, now));
  }

  lemma ConfirmSteps(s: State, uuid: Id, changeId: Id, matches: bool, now: Time, i: IL.State, pid: IL.Pid)
    requires ChallengesOk(s.challenges) && Shows(i, s) && pid !in i.procs
    ensures Shows(Then(i, ConfirmCalls(s, uuid, changeId, matches, now, pid)),
        Confirm(s, uuid, changeId, matches, now).state)
  {
    Steps1(i, IL.CancelChange(changeId, PC.AwaitingConfirmationExpired, now));
    Steps1(i, IL.CancelChange(changeId, PC.ChallengeMissing, now));
    if changeId in s.changes.rows && s.changes.rows[changeId].info.challengeNewId.Some? {
      var change := s.changes.rows[changeId];
      if change.info.challengeNewId.value in s.challenges {
        AnsweredSteps(s, change, change.info.challengeNewId.value, matches, now, i, pid);
      }
    }
  }

  lemma StepupChallengeSteps(
      s: State, q: Req.StepupRequest, operatorRefusal: Option<Reply>, id: Id, appId: Id, secret: string,
      now: Time, i: IL.State)
    requires Shows(i, s)
    ensures Shows(Then(i, StepupChallengeCalls(s, q, operatorRefusal, id, appId, secret, now)),
                  CreateStepupChallenge(s, q, operatorRefusal, id, appId, secret, now).state)
  {
    Req.AcceptedRequestsAreBound(q, id, appId, secret, now);
    Steps1(i, IL.CreateChallenge(Req.StepupInfo(q, id, appId, secret, now), now));
  }

  lemma AuthChallengeSteps(
      env: Env, s: State, phone: string, factor: AC.Factor, purpose: AC.Purpose, id: Id, appId: Id, secret: string,
      now: Time, i: IL.State)
    requires Shows(i, s)
    ensures Shows(Then(i, AuthChallengeCalls(env, s, phone, factor, purpose, id, appId, secret, now)),
                  CreateAuthChallenge(env, s, phone, factor, purpose, id, appId, secret, now).state)
  {
    var calls := AuthChallengeCalls(env, s, phone, factor, purpose, id, appId, secret, now);
    if calls != [] {
      assert Req.Unbound(calls[0].info);
      Steps1(i, calls[0]);
    }
  }

  lemma RowsUntouched(env: Env, s: State, r: Request, now: Time, i: IL.State)
    requires Shows(i, s) && (RailHistory.IsCustomerRequest(r) || r.ReqValidate? || r.ReqAudienceToken?)
    ensures Shows(i, Serve(env, s, r, now).state)
  {}

  /** Making the calls of a request one after the other ends in the rows of its atomic step. */
  lemma {:induction false} ServeSteps(env: Env, s: State, r: Request, now: Time, i: IL.State, pid: IL.Pid)
    requires ChallengesOk(s.challenges) && TokensOk(s.challenges, s.tokens, s.answered) &&
        IssuedOk(env.issuer, s.tokens, s.issued)
    requires Admissible(env, s, r) && Shows(i, s) && pid !in i.procs
    ensures Shows(Then(i, CallsOf(env, s, r, now, pid)), Serve(env, s, r, now).state)
    ensures OnlyAdds(i, Then(i, CallsOf(env, s, r, now, pid)), pid)
  {
    ThenAdds(i, CallsOf(env, s, r, now, pid), pid);
    match r
    case ReqStepupVerify(id, response) => VerifySteps(env, s, id, response, now, i, pid);
    case ReqCustomerToken(id, response, jti, audience) => LoginSteps(env, s, id, response, jti, audience, now, i, pid);
    case ReqSign(appId, kid, claims) => SignSteps(env, s, appId, kid, claims, now, i, pid);
    case ReqInitiate(q) => InitiateSteps(env, s, q, now, i, pid);
    case ReqConfirm(uuid, changeId, matches) => ConfirmSteps(s, uuid, changeId, matches, now, i, pid);
    case ReqStepupChallenge(q, operatorRefusal, id, appId, secret) =>
      StepupChallengeSteps(s, q, operatorRefusal, id, appId, secret, now, i);
    case ReqAuthChallenge(phone, factor, purpose, id, appId, secret) =>
      AuthChallengeSteps(env, s, phone, factor, purpose, id, appId, secret, now, i);
    case ReqValidate(_, _) => Steps1(i, IL.Inspect(pid));
    case _ => RowsUntouched(env, s, r, now, i);
  }

  /** The calls of a whole run, request after request; the k-th request is process k. */
  function CallsOfRun(env: Env, ticks: seq<Tick>): seq<IL.Event> {
    if ticks == [] then []
    else
      var n := |ticks| - 1;
      CallsOfRun(env, ticks[..n]) + CallsOf(env, After(env, ticks[..n]), ticks[n].request, ticks[n].now, n)
  }

  /** Every run of atomic handlers is an interleaving: the one in which each request's calls come in one piece. */
  lemma {:induction false} AtomicRunsAreInterleavings(env: Env, ticks: seq<Tick>)
    requires Crypto.Opens(env.crypto) && IsRun(env, ticks)
    ensures Shows(IL.Run(CallsOfRun(env, ticks)), After(env, ticks))
    ensures forall p :: p in IL.Run(CallsOfRun(env, ticks)).procs ==> p < |ticks|
  {
    if ticks != [] {
      var n := |ticks| - 1;
      var s, before := After(env, ticks[..n]), CallsOfRun(env, ticks[..n]);
      AtomicRunsAreInterleavings(env, ticks[..n]);
      RailTheorems.RunKeepsInv(env, ticks[..n]);
      ServeSteps(env, s, ticks[n].request, ticks[n].now, IL.Run(before), n);
      RunThen(before, CallsOf(env, s, ticks[n].request, ticks[n].now, n));
    }
  }
}
