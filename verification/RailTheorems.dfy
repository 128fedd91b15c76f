/**
 * The theorems about runs of atomic handlers. A run is a sequence of requests of any
 * kind, with clock readings that do not decrease, in which whoever presents a genuine
 * token was given it by the service.
 */
module RailTheorems {
  import opened Domain
  import opened Rail
  import opened RailAuthority
  import opened RailPhoneChanges
  import opened RailRecords
  import opened RailInvariants
  import opened RailHistory
  import AC = AuthChallenges
  import SU = StepUpTokens
  import PC = PhoneChanges
  import Cust = Customers
  import Crypto = PhoneCrypto
  import PhoneNormalise
  import TierTimeline
  import RailServe

  /** The last reading of the clock. */
  function Clock(ticks: seq<Tick>): Time {
    if ticks == [] then 0 else ticks[|ticks| - 1].now
  }

  lemma {:induction false} RunKeepsInv(env: Env, ticks: seq<Tick>)
    requires Crypto.Opens(env.crypto) && IsRun(env, ticks)
    ensures Inv(env, After(env, ticks), Clock(ticks))
  {
    if ticks == [] {
      InitHasInv(env, 0);
    } else {
      var n := |ticks| - 1;
      var before := After(env, ticks[..n]);
      if n == 0 {
        InitHasInv(env, ticks[0].now);
      } else {
        RunKeepsInv(env, ticks[..n]);
        assert ticks[..n][n - 1] == ticks[n - 1];
        LaterKeepsInv(env, before, ticks[n - 1].now, ticks[n].now);
      }
      RailServe.ServeKeepsInv(env, before, ticks[n].request, ticks[n].now);
    }
  }

  /**
   * In every run two swaps of one account's number are at least 24 hours apart, although
   * confirm never looks at the cooldown.
   */
  lemma {:induction false} SwapsAreADayApart(env: Env, ticks: seq<Tick>, i: nat, j: nat)
    requires Crypto.Opens(env.crypto) && IsRun(env, ticks)
    requires var es := After(env, ticks).phoneEvents; i < j < |es| && es[i].account == es[j].account
    ensures var es := After(env, ticks).phoneEvents; es[j].changedAt - es[i].changedAt >= 24 * 60 * 60 * 1000
  {
    RunKeepsInv(env, ticks);
  }

  /**
   * Every swap goes back to a token of its own: spent, for `identiti.phone_change`, of
   * the same account; and from there to the challenge of the same identifier, bound to
   * that account and operation, consumed, and answered correctly.
   */
  lemma {:induction false} EverySwapWasAuthorised(env: Env, ticks: seq<Tick>, i: nat)
    requires Crypto.Opens(env.crypto) && IsRun(env, ticks) && i < |After(env, ticks).phoneEvents|
    ensures var s := After(env, ticks);
      var e := s.phoneEvents[i];
      && SU.Spent(s.tokens, e.stepupJti)
      && var t := s.tokens[e.stepupJti].info;
      && t.operationKind == "identiti.phone_change" && t.audience == "https://api.id.identiti.co.ke"
      && t.accountUuid == Some(e.account)
      && e.stepupJti in s.challenges
      && var c := s.challenges[e.stepupJti];
      && c.status == AC.Consumed && c.info.accountId == Some(e.account)
      && c.info.intendedOperation == Some("identiti.phone_change")
      && e.stepupJti in s.answered
    ensures var es := After(env, ticks).phoneEvents;
      forall j :: 0 <= j < |es| && j != i ==> es[j].stepupJti != es[i].stepupJti
  {
    RunKeepsInv(env, ticks);
    var s := After(env, ticks);
    var e := s.phoneEvents[i];
    assert HasRow(s.changes, e);
    var id :| id in s.changes.rows && Matches(s.changes.rows[id], e);
    assert UsedBy(s.changes, s.signings, ByChange(id)).Some? &&
        UseIsAuthorised(s.tokens, s.changes, s.signings, ByChange(id));
    assert MintedFrom(s.challenges, s.answered, e.stepupJti, s.tokens[e.stepupJti]);
    forall j | 0 <= j < |s.phoneEvents| && j != i ensures s.phoneEvents[j].stepupJti != e.stepupJti {
      if j < i { assert s.phoneEvents[j].stepupJti != s.phoneEvents[i].stepupJti; }
    }
  }

  /**
   * Swaps and completed changes correspond one to one: no change completes without its swap, and no
   * swap lacks its change.
   */
  lemma {:induction false} SwapsAreTheCompletedChanges(env: Env, ticks: seq<Tick>)
    requires Crypto.Opens(env.crypto) && IsRun(env, ticks)
    ensures var s := After(env, ticks);
      && (forall i :: 0 <= i < |s.phoneEvents| ==> HasRow(s.changes, s.phoneEvents[i]))
      && (forall id :: id in s.changes.rows && s.changes.rows[id].state == PC.Completed ==>
          HasEvent(s.phoneEvents, s.changes.rows[id]))
      && (forall i, j :: 0 <= i < j < |s.phoneEvents| ==> s.phoneEvents[i].stepupJti != s.phoneEvents[j].stepupJti)
      && (forall a, b :: a in s.changes.rows && b in s.changes.rows && a != b ==>
          s.changes.rows[a].info.authorisingStepupJti != s.changes.rows[b].info.authorisingStepupJti)
  {
    RunKeepsInv(env, ticks);
    SpendGivesDistinctJtis(After(env, ticks).tokens, After(env, ticks).changes, After(env, ticks).signings);
  }

  /** The machine of phone changes, in every reachable state. */
  lemma {:induction false} ChangeMachine(env: Env, ticks: seq<Tick>, id: Id)
    requires Crypto.Opens(env.crypto) && IsRun(env, ticks) && id in After(env, ticks).changes.rows
    ensures var s := After(env, ticks);
      var r := s.changes.rows[id];
      && (forall other ::
          IsActive(s.changes, id) && IsActive(s.changes, other) &&
          s.changes.rows[other].info.accountId == r.info.accountId ==>
            other == id)
      && (r.info.verificationMethod == PC.OtpToOldPhone ==>
          r.state == PC.Completed && r.completedAt.None? && r.info.challengeNewId.None?)
      && (r.info.verificationMethod == PC.OtpToNewPhoneWithStepUpToOld ==>
          && r.info.challengeNewId.Some? && r.info.challengeNewId.value in s.challenges
          && var c := s.challenges[r.info.challengeNewId.value];
          && c.info.accountId == Some(r.info.accountId) && c.info.expiresAt == r.info.expiresAt
          && (c.status == AC.Failed ==> r.state == PC.Cancelled)
          && (r.state == PC.Completed ==> c.status == AC.Consumed && r.completedAt.Some?)
          && (forall other :: other in s.changes.rows && other != id ==>
              s.changes.rows[other].info.challengeNewId != r.info.challengeNewId))
  {
    RunKeepsInv(env, ticks);
    var s := After(env, ticks);
    assert RowOk(s.challenges, s.changes.rows[id], Clock(ticks));
  }

  lemma {:induction false} RunAdvances(env: Env, ticks: seq<Tick>, n: nat)
    requires Crypto.Opens(env.crypto) && IsRun(env, ticks) && n <= |ticks|
    ensures Advances(After(env, ticks[..n]), After(env, ticks))
  {
    if n == |ticks| {
      assert ticks[..n] == ticks;
      AdvancesReflexive(After(env, ticks));
    } else {
      var m := |ticks| - 1;
      RunAdvances(env, ticks[..m], n);
      assert ticks[..m][..n] == ticks[..n];
      RunKeepsInv(env, ticks[..m]);
      ServeAdvances(env, After(env, ticks[..m]), ticks[m].request, ticks[m].now);
      AdvancesTransitive(After(env, ticks[..n]), After(env, ticks[..m]), After(env, ticks));
    }
  }

  /**
   * Completed and cancelled changes, and consumed, expired and failed challenges, stay exactly as
   * they are for the rest of the run.
   */
  lemma {:induction false} TerminalStatesAbsorb(env: Env, ticks: seq<Tick>, n: nat, id: Id)
    requires Crypto.Opens(env.crypto) && IsRun(env, ticks) && n <= |ticks|
    ensures var s, s' := After(env, ticks[..n]), After(env, ticks);
      && (id in s.changes.rows && s.changes.rows[id].state in {PC.Completed, PC.Cancelled} ==>
          id in s'.changes.rows && s'.changes.rows[id] == s.changes.rows[id])
      && (id in s.challenges && s.challenges[id].status != AC.Pending ==>
          id in s'.challenges && s'.challenges[id] == s.challenges[id])
      && (SU.Spent(s.tokens, id) ==> id in s'.tokens && s'.tokens[id] == s.tokens[id])
  {
    RunAdvances(env, ticks, n);
  }

  /**
   * A consumer that replays the account events, rejecting any from-value that differs from the
   * value just before, ends with the repository's states and tiers.
   */
  lemma {:induction false} ReplayReconstructs(env: Env, ticks: seq<Tick>)
    requires Crypto.Opens(env.crypto) && IsRun(env, ticks)
    ensures var s := After(env, ticks);
      && Replay(s.accountEvents).Some?
      && Replay(s.accountEvents).value.Keys == s.customers.accounts.Keys
      && forall u :: u in s.customers.accounts ==>
        Replay(s.accountEvents).value[u] == View(s.customers.accounts[u].state, s.customers.accounts[u].tier)
  {
    RunKeepsInv(env, ticks);
  }

  /**
   * Per account the PHONE_CHANGED events are an unbroken chain of hashes that ends at the
   * bound hash; and it always leads back to the hash the account had at any earlier
   * point of the run at which none of its events had been published.
   */
  lemma {:induction false} PhoneEventsChain(env: Env, ticks: seq<Tick>, n: nat, uuid: Id)
    requires Crypto.Opens(env.crypto) && IsRun(env, ticks) && n <= |ticks|
    requires uuid in After(env, ticks[..n]).customers.accounts
    ensures var s, s' := After(env, ticks[..n]), After(env, ticks);
      && uuid in s'.customers.accounts && Origin(s', uuid).Some? && Origin(s', uuid) == Origin(s, uuid)
      && ((forall i :: 0 <= i < |s.phoneEvents| ==> s.phoneEvents[i].account != uuid) ==>
          Origin(s', uuid) == Some(s.customers.accounts[uuid].phoneHash))
  {
    var s := After(env, ticks[..n]);
    RunKeepsInv(env, ticks);
    RunAdvances(env, ticks, n);
    if forall i :: 0 <= i < |s.phoneEvents| ==> s.phoneEvents[i].account != uuid {
      NoEventsNoRewind(s.phoneEvents, uuid, s.customers.accounts[uuid].phoneHash);
    }
  }

  /**
   * The phone-hash index and the stored hashes are inverse to each other, and every
   * ciphertext, of an account or of a phone change in any state, opens to a canonical
   * number with the hash stored beside it.
   */
  lemma {:induction false} IndexAndCiphertextsAgree(env: Env, ticks: seq<Tick>)
    requires Crypto.Opens(env.crypto) && IsRun(env, ticks)
    ensures var s := After(env, ticks);
      && (forall u :: u in s.customers.accounts ==>
          var a := s.customers.accounts[u];
          a.phoneHash in s.customers.phoneHashes && s.customers.phoneHashes[a.phoneHash] == u &&
              SealsHash(env.crypto, a.phoneHash, a.phoneEncrypted))
      && (forall h :: h in s.customers.phoneHashes ==>
          s.customers.phoneHashes[h] in s.customers.accounts &&
              s.customers.accounts[s.customers.phoneHashes[h]].phoneHash == h)
      && (forall id :: id in s.changes.rows ==>
          SealsHash(env.crypto, s.changes.rows[id].info.newPhoneHash, s.changes.rows[id].info.newPhoneEncrypted))
  {
    RunKeepsInv(env, ticks);
    var s := After(env, ticks);
    forall id | id in s.changes.rows
      ensures SealsHash(env.crypto, s.changes.rows[id].info.newPhoneHash, s.changes.rows[id].info.newPhoneEncrypted)
    {
      assert RowsSealed(env.crypto, s.changes);
    }
  }

  /** In every run each account has exactly one tier at every instant from its creation on. */
  lemma {:induction false} TiersPartitionTime(env: Env, ticks: seq<Tick>, uuid: Id, t: Time)
    requires Crypto.Opens(env.crypto) && IsRun(env, ticks) && uuid in After(env, ticks).customers.accounts
    ensures var c := After(env, ticks).customers;
      var p := TierTimeline.Of(c.history, uuid);
      && (if t < c.accounts[uuid].createdAt then forall i :: 0 <= i < |p| ==> !TierTimeline.Covers(p[i], t)
          else TierTimeline.CoveredOnce(p, t))
      && p != [] && p[0].tier == Cust.Tier0
      && Cust.GetTier(c.accounts[uuid]) == Cust.TierSnapshot(p[|p| - 1].tier, p[|p| - 1].assignedAt, p[|p| - 1].reason)
  {
    RunKeepsInv(env, ticks);
    var c := After(env, ticks).customers;
    TierTimeline.EveryInstantHasOneTier(c, uuid, Clock(ticks), t);
    TierTimeline.PresentTierIsTheOpenOne(c, uuid, Clock(ticks));
    assert TierTimeline.Timeline(c, uuid);
  }

  // Confirming.

  /** The change and its challenge are in the state in which a correct answer counts. */
  predicate Confirmable(s: State, uuid: Id, id: Id, now: Time) {
    && id in s.changes.rows && s.changes.rows[id].info.id == id
    && s.changes.rows[id].info.accountId == uuid && s.changes.rows[id].state == PC.CooldownActive
    && now < s.changes.rows[id].info.expiresAt
    && s.changes.rows[id].info.challengeNewId.Some? && s.changes.rows[id].info.challengeNewId.value in s.challenges
    && var c := s.challenges[s.changes.rows[id].info.challengeNewId.value];
    && c.status == AC.Pending && c.info.otpHash.Some?
  }

  predicate HeldByAnother(s: State, uuid: Id, hash: string) {
    exists other :: other in s.customers.accounts && other != uuid && s.customers.accounts[other].phoneHash == hash
  }

  /** What a correct answer does, in terms of whether the number can be claimed. */
  lemma CorrectAnswer(s: State, uuid: Id, id: Id, now: Time)
    requires Confirmable(s, uuid, id, now)
    ensures var r := Confirm(s, uuid, id, true, now);
      var i := s.changes.rows[id].info;
      && r.state.challenges == AC.WithAttempt(s.challenges, i.challengeNewId.value, AC.Success(now))
      && (Cust.SwapOutcome(s.customers, uuid, i.newPhoneHash) == Cust.Done ==>
          r.reply == Ok(200) && r.state.changes == PC.WithCompleted(s.changes, id, now))
      && (Cust.SwapOutcome(s.customers, uuid, i.newPhoneHash) == Cust.PhoneTaken ==>
          r.reply == INTERNAL && r.state.changes == s.changes && r.state.customers == s.customers &&
              r.state.phoneEvents == s.phoneEvents)
      && (Cust.SwapOutcome(s.customers, uuid, i.newPhoneHash) == Cust.NotFound ==>
          r.reply == INTERNAL && r.state.changes == PC.WithCancelled(s.changes, id, PC.PhoneRecordVanished, now))
  {}

  /**
   * A correct answer completes the change exactly when the account is still there and no
   * other one has taken the number since it was asked for. In the latter case the uniqueness
   * of phone hashes ends the handler after the challenge has been consumed, and the change
   * stays active with a challenge that can never be answered again.
   */
  lemma {:induction false} CorrectAnswerCompletesExactlyWhenFree(s: State, uuid: Id, id: Id, now: Time)
    requires Cust.IndexAgrees(s.customers) && Confirmable(s, uuid, id, now)
    ensures var r := Confirm(s, uuid, id, true, now);
      var cid := s.changes.rows[id].info.challengeNewId.value;
      && id in r.state.changes.rows && cid in r.state.challenges && r.state.challenges[cid].status == AC.Consumed
      && (r.reply == Ok(200) <==>
          uuid in s.customers.accounts && !HeldByAnother(s, uuid, s.changes.rows[id].info.newPhoneHash))
      && (r.state.changes.rows[id].state == PC.Completed <==> r.reply == Ok(200))
      && (r.state.changes.rows[id].state == PC.Cancelled <==> uuid !in s.customers.accounts)
      && (uuid in s.customers.accounts && r.reply != Ok(200) ==>
          r.reply == INTERNAL && r.state.changes == s.changes && r.state.customers == s.customers &&
              r.state.phoneEvents == s.phoneEvents)
  {
    CorrectAnswer(s, uuid, id, now);
    if uuid in s.customers.accounts {
      HeldByAnotherIsTaken(s.customers, uuid, s.changes.rows[id].info.newPhoneHash);
    }
  }

  lemma HeldByAnotherIsTaken(c: Cust.Store, uuid: Id, hash: string)
    requires Cust.IndexAgrees(c) && uuid in c.accounts
    ensures (exists other :: other in c.accounts && other != uuid && c.accounts[other].phoneHash == hash) <==>
        Cust.SwapOutcome(c, uuid, hash) == Cust.PhoneTaken
    ensures Cust.SwapOutcome(c, uuid, hash) != Cust.PhoneTaken ==> Cust.SwapOutcome(c, uuid, hash) == Cust.Done
  {
    if Cust.SwapOutcome(c, uuid, hash) == Cust.PhoneTaken {
      assert c.phoneHashes[hash] in c.accounts && c.accounts[c.phoneHashes[hash]].phoneHash == hash;
    }
  }

  /** And that does happen: any app can register the awaited number as a new customer before the confirmation. */
  lemma {:induction false} AwaitedNumberCanBeTaken(env: Env, s: State, uuid: Id, id: Id, newcomer: Id, appId: Id,
      assignmentId: Id, iv: Crypto.Bytes, now: Time)
    returns (phone: string, taken: State)
    requires Crypto.Opens(env.crypto) && |iv| == Crypto.IV_LEN
    requires Inv(env, s, now) && Confirmable(s, uuid, id, now) &&
        s.changes.rows[id].info.newPhoneHash !in s.customers.phoneHashes
    requires newcomer !in s.customers.accounts && newcomer != uuid &&
        !Cust.HasAssignment(s.customers.history, assignmentId)
    ensures CreateCustomer(env, s, phone, true, newcomer, appId, assignmentId, iv, now) == Result(taken, Ok(201))
    ensures var r := Confirm(taken, uuid, id, true, now);
      r.reply == INTERNAL && id in r.state.changes.rows && r.state.changes.rows[id].state == PC.CooldownActive
  {
    var info := s.changes.rows[id].info;
    assert RowsSealed(env.crypto, s.changes) && SealsHash(env.crypto, info.newPhoneHash, info.newPhoneEncrypted);
    phone := env.crypto.open(info.newPhoneEncrypted).value;
    PhoneNormalise.CanonicalIsClean(phone);
    PhoneNormalise.Preimage(phone, phone);
    taken := CreateCustomer(env, s, phone, true, newcomer, appId, assignmentId, iv, now).state;
    RailServe.CreateCustomerKeepsInv(env, s, phone, true, newcomer, appId, assignmentId, iv, now);
    assert taken.customers.accounts[newcomer].phoneHash == info.newPhoneHash;
    assert IsActive(s.changes, id);
    ActiveIsPastCooldown(s, id, now);
    CorrectAnswerCompletesExactlyWhenFree(taken, uuid, id, now);
  }
}
