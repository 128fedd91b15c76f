/**
 * The phone-change machine, the spacing of swaps, and the correspondence between swaps
 * and completed changes. Each lemma is about one elementary change of the stores.
 */
module RailPhoneChanges {
  import opened Domain
  import AC = AuthChallenges
  import PC = PhoneChanges
  import Cust = Customers
  import PhoneCooldown
  import Rail
  import RailAuthority

  // The machine.

  /**
   * The challenge of a two-phone change is its own: same account, same deadline; its status never
   * lags behind the change.
   */
  predicate OwnsChallenge(h: AC.Challenges, r: PC.Change) {
    r.info.challengeNewId.Some? && r.info.challengeNewId.value in h &&
    var c := h[r.info.challengeNewId.value];
    && c.info.purpose == AC.PhoneChangeToNew && c.info.otpHash.Some?
    && c.info.accountId == Some(r.info.accountId) && c.info.expiresAt == r.info.expiresAt
    && (r.state == PC.CooldownActive ==> c.status == AC.Pending || c.status == AC.Consumed)
    && (r.state == PC.Completed ==> c.status == AC.Consumed)
  }

  predicate RowOk(h: AC.Challenges, r: PC.Change, now: Time) {
    && r.initiatedAt <= now
    && match r.info.verificationMethod
       case OtpToOldPhone => r.state == PC.Completed && r.info.challengeNewId.None? && r.completedAt.None?
       case OtpToNewPhoneWithStepUpToOld =>
         OwnsChallenge(h, r) && r.state != PC.Initiated && (r.completedAt.Some? <==> r.state == PC.Completed)
  }

  predicate IsActive(p: PC.Table, id: Id) {
    id in p.rows && PC.IsActiveState(p.rows[id].state)
  }

  ghost predicate OneActive(p: PC.Table) {
    forall a, b :: IsActive(p, a) && IsActive(p, b) && p.rows[a].info.accountId == p.rows[b].info.accountId ==> a == b
  }

  ghost predicate OwnChallenges(p: PC.Table) {
    forall a, b :: a in p.rows && b in p.rows && a != b && p.rows[a].info.challengeNewId.Some? ==>
      p.rows[a].info.challengeNewId != p.rows[b].info.challengeNewId
  }

  ghost predicate RowsOk(h: AC.Challenges, p: PC.Table, now: Time) {
    forall id :: id in p.rows ==> RowOk(h, p.rows[id], now)
  }

  ghost predicate ChangeInv(h: AC.Challenges, p: PC.Table, now: Time) {
    PC.WellFormed(p) && OneActive(p) && OwnChallenges(p) && RowsOk(h, p, now)
  }

  ghost predicate NoneActive(p: PC.Table, accountId: Id) {
    forall id :: IsActive(p, id) ==> p.rows[id].info.accountId != accountId
  }

  lemma ChallengeKeepsChangeInv(h: AC.Challenges, p: PC.Table, info: AC.ChallengeInfo, now: Time)
    requires ChangeInv(h, p, now)
    ensures ChangeInv(AC.WithChallenge(h, info, now), p, now)
  {
    var h' := AC.WithChallenge(h, info, now);
    forall id | id in p.rows ensures RowOk(h', p.rows[id], now) {
      assert RowOk(h, p.rows[id], now);
    }
  }

  /** An attempt at a challenge of another purpose, or one that leaves the challenge pending or consumes it. */
  lemma AttemptKeepsChangeInv(h: AC.Challenges, p: PC.Table, cid: Id, next: AC.AttemptUpdate, now: Time)
    requires ChangeInv(h, p, now)
    requires (cid in h ==> h[cid].info.purpose != AC.PhoneChangeToNew) || next.status == AC.Pending ||
        next.status == AC.Consumed
    ensures ChangeInv(AC.WithAttempt(h, cid, next), p, now)
  {
    var h' := AC.WithAttempt(h, cid, next);
    forall id | id in p.rows ensures RowOk(h', p.rows[id], now) {
      assert RowOk(h, p.rows[id], now);
    }
  }

  lemma CancelTouchesActive(p: PC.Table, id: Id, reason: PC.CancelReason, now: Time)
    ensures var p' := PC.WithCancelled(p, id, reason, now);
      && RailAuthority.SameInfos(p, p') && SameCompleted(p, p') && ActiveShrinks(p, p') && p'.order == p.order
      && forall a :: a in p.rows && a != id ==> p'.rows[a] == p.rows[a]
  {}

  lemma CancelKeepsChangeInv(h: AC.Challenges, p: PC.Table, id: Id, reason: PC.CancelReason, now: Time)
    requires ChangeInv(h, p, now)
    ensures ChangeInv(h, PC.WithCancelled(p, id, reason, now), now)
    ensures !IsActive(PC.WithCancelled(p, id, reason, now), id)
  {
    var p' := PC.WithCancelled(p, id, reason, now);
    CancelTouchesActive(p, id, reason, now);
    assert id in p.rows ==> RowOk(h, p.rows[id], now) && RowOk(h, p'.rows[id], now);
    forall a | a in p'.rows ensures RowOk(h, p'.rows[a], now) {
      assert RowOk(h, p.rows[a], now);
    }
  }

  /** The last failure fails the challenge and cancels its change; no other change uses that challenge. */
  lemma FailureKeepsChangeInv(h: AC.Challenges, p: PC.Table, id: Id, cid: Id, next: AC.AttemptUpdate,
      reason: PC.CancelReason, now: Time)
    requires ChangeInv(h, p, now) && IsActive(p, id) && p.rows[id].info.challengeNewId == Some(cid)
    ensures ChangeInv(AC.WithAttempt(h, cid, next), PC.WithCancelled(p, id, reason, now), now)
  {
    var h', p' := AC.WithAttempt(h, cid, next), PC.WithCancelled(p, id, reason, now);
    CancelKeepsChangeInv(h, p, id, reason, now);
    forall a | a in p'.rows ensures RowOk(h', p'.rows[a], now) {
      assert RowOk(h, p.rows[a], now) && RowOk(h, p.rows[id], now);
      assert a != id ==> p.rows[a].info.challengeNewId != Some(cid);
    }
  }

  /** Superseding leaves the account without an active change. */
  lemma {:induction false} SupersedeKeepsChangeInv(h: AC.Challenges, p: PC.Table, accountId: Id, now: Time)
    requires ChangeInv(h, p, now)
    ensures var p' := PC.WithExistingCancelled(p, accountId, now);
      && ChangeInv(h, p', now) && NoneActive(p', accountId) && ActiveShrinks(p, p')
      && RailAuthority.SameInfos(p, p') && SameCompleted(p, p')
  {
    var existing := PC.FindActive(p, accountId);
    if existing.Some? {
      CancelKeepsChangeInv(h, p, existing.value, PC.SupersededByNewInitiate, now);
      CancelTouchesActive(p, existing.value, PC.SupersededByNewInitiate, now);
      var p' := PC.WithExistingCancelled(p, accountId, now);
      forall id | IsActive(p', id) ensures p'.rows[id].info.accountId != accountId {
        assert IsActive(p, id) && IsActive(p, existing.value);
      }
    } else {
      forall id | IsActive(p, id) ensures p.rows[id].info.accountId != accountId {
        assert id in p.order;
        assert !PC.IsActiveFor(p, id, accountId);
      }
    }
  }

  lemma AtOnceKeepsChangeInv(h: AC.Challenges, p: PC.Table, info: PC.ChangeInfo, now: Time)
    requires ChangeInv(h, p, now) && info.verificationMethod == PC.OtpToOldPhone && info.challengeNewId.None?
    ensures ChangeInv(h, PC.WithChange(p, info, PC.Completed, now), now)
  {
    var p' := PC.WithChange(p, info, PC.Completed, now);
    assert forall a :: IsActive(p', a) ==> IsActive(p, a) && p'.rows[a] == p.rows[a];
    forall a | a in p'.rows ensures RowOk(h, p'.rows[a], now) {
      assert a in p.rows ==> RowOk(h, p.rows[a], now);
    }
  }

  lemma AwaitKeepsChangeInv(h: AC.Challenges, p: PC.Table, c: AC.ChallengeInfo, info: PC.ChangeInfo, now: Time)
    requires ChangeInv(h, p, now) && c.id !in h && info.id !in p.rows && NoneActive(p, info.accountId)
    requires info.verificationMethod == PC.OtpToNewPhoneWithStepUpToOld && info.challengeNewId == Some(c.id)
    requires c.purpose == AC.PhoneChangeToNew && c.otpHash.Some? && c.accountId == Some(info.accountId) &&
        c.expiresAt == info.expiresAt
    ensures ChangeInv(AC.WithChallenge(h, c, now), PC.WithChange(p, info, PC.CooldownActive, now), now)
  {
    var h', p' := AC.WithChallenge(h, c, now), PC.WithChange(p, info, PC.CooldownActive, now);
    ChallengeKeepsChangeInv(h, p, c, now);
    forall a | a in p'.rows ensures RowOk(h', p'.rows[a], now) {
      assert a in p.rows ==> RowOk(h', p.rows[a], now);
    }
    forall a, b | IsActive(p', a) && IsActive(p', b) && p'.rows[a].info.accountId == p'.rows[b].info.accountId
        ensures a == b {
      assert a != info.id ==> IsActive(p, a);
      assert b != info.id ==> IsActive(p, b);
    }
    forall a | a in p.rows ensures p.rows[a].info.challengeNewId != Some(c.id) {
      assert RowOk(h, p.rows[a], now);
    }
  }

  lemma CompleteTouchesOne(p: PC.Table, id: Id, now: Time)
    ensures var p' := PC.WithCompleted(p, id, now);
      && ActiveShrinks(p, p') && RailAuthority.SameInfos(p, p') && p'.order == p.order
      && forall a :: a in p.rows && a != id ==> p'.rows[a] == p.rows[a]
  {}

  lemma CompleteKeepsChangeInv(h: AC.Challenges, p: PC.Table, id: Id, now: Time)
    requires ChangeInv(h, p, now) && id in p.rows && p.rows[id].info.challengeNewId.Some?
    requires p.rows[id].info.challengeNewId.value in h && h[p.rows[id].info.challengeNewId.value].status == AC.Consumed
    ensures ChangeInv(h, PC.WithCompleted(p, id, now), now)
  {
    var p' := PC.WithCompleted(p, id, now);
    CompleteTouchesOne(p, id, now);
    assert RowOk(h, p.rows[id], now) && RowOk(h, p'.rows[id], now);
    forall a | a in p'.rows ensures RowOk(h, p'.rows[a], now) {
      assert RowOk(h, p.rows[a], now);
    }
  }

  // The spacing of swaps.

  ghost predicate Cooled(accounts: map<Id, Cust.Account>, e: Rail.PhoneChanged) {
    && e.account in accounts && accounts[e.account].cooldownUntil.Some?
    && e.changedAt + DAY_MS <= accounts[e.account].cooldownUntil.value
  }

  /** `t` is past the cooldown of the account. */
  predicate PastCooldown(accounts: map<Id, Cust.Account>, accountId: Id, t: Time) {
    accountId in accounts && !PhoneCooldown.IsInCooldown(accounts[accountId].cooldownUntil, t)
  }

  ghost predicate Spaced(events: seq<Rail.PhoneChanged>) {
    forall i, j :: 0 <= i < j < |events| && events[i].account == events[j].account ==>
        events[i].changedAt + DAY_MS <= events[j].changedAt
  }

  /** An active change was initiated at or after the end of its account's cooldown. */
  ghost predicate CoolInv(accounts: map<Id, Cust.Account>, p: PC.Table, events: seq<Rail.PhoneChanged>) {
    && Spaced(events)
    && (forall i :: 0 <= i < |events| ==> Cooled(accounts, events[i]))
    && (forall id :: IsActive(p, id) ==> PastCooldown(accounts, p.rows[id].info.accountId, p.rows[id].initiatedAt))
  }

  ghost predicate ActiveShrinks(p: PC.Table, p': PC.Table) {
    forall id :: IsActive(p', id) ==> IsActive(p, id) && p'.rows[id] == p.rows[id]
  }

  ghost predicate SameCooldowns(accounts: map<Id, Cust.Account>, accounts': map<Id, Cust.Account>) {
    forall u :: u in accounts ==> u in accounts' && accounts'[u].cooldownUntil == accounts[u].cooldownUntil
  }

  lemma QuietStepsKeepCoolInv(
      accounts: map<Id, Cust.Account>, accounts': map<Id, Cust.Account>, p: PC.Table, p': PC.Table,
          events: seq<Rail.PhoneChanged>)
    requires CoolInv(accounts, p, events) && SameCooldowns(accounts, accounts') && ActiveShrinks(p, p')
    ensures CoolInv(accounts', p', events)
  {
    forall i | 0 <= i < |events| ensures Cooled(accounts', events[i]) {
      assert Cooled(accounts, events[i]);
    }
  }

  lemma AwaitKeepsCoolInv(accounts: map<Id, Cust.Account>, p: PC.Table, events: seq<Rail.PhoneChanged>,
      info: PC.ChangeInfo, now: Time)
    requires CoolInv(accounts, p, events) && PastCooldown(accounts, info.accountId, now)
    ensures CoolInv(accounts, PC.WithChange(p, info, PC.CooldownActive, now), events)
  {
    var p' := PC.WithChange(p, info, PC.CooldownActive, now);
    forall id | IsActive(p', id) ensures PastCooldown(accounts, p'.rows[id].info.accountId, p'.rows[id].initiatedAt) {
      assert id in p.rows ==> IsActive(p, id) && p'.rows[id] == p.rows[id];
    }
  }

  /** A swap past the cooldown: every earlier swap of the account is at least a day old, and nothing stays active. */
  lemma SwapKeepsCoolInv(
      accounts: map<Id, Cust.Account>, p: PC.Table, p': PC.Table, events: seq<Rail.PhoneChanged>, a: Cust.Account,
          e: Rail.PhoneChanged)
    requires CoolInv(accounts, p, events) && ActiveShrinks(p, p')
    requires PastCooldown(accounts, e.account, e.changedAt) && a.cooldownUntil == Some(e.changedAt + DAY_MS)
    requires NoneActive(p', e.account)
    ensures CoolInv(accounts[e.account := a], p', events + [e])
  {
    var accounts', events' := accounts[e.account := a], events + [e];
    forall i | 0 <= i < |events'| ensures Cooled(accounts', events'[i]) {
      assert i < |events| ==> Cooled(accounts, events[i]);
    }
    forall i, j | 0 <= i < j < |events'| && events'[i].account == events'[j].account
      ensures events'[i].changedAt + DAY_MS <= events'[j].changedAt
    {
      assert Cooled(accounts, events[i]);
    }
    forall id | IsActive(p', id) ensures PastCooldown(accounts', p'.rows[id].info.accountId, p'.rows[id].initiatedAt) {
      assert IsActive(p, id);
    }
  }

  // Swaps and completed changes.

  predicate Matches(r: PC.Change, e: Rail.PhoneChanged) {
    && r.state == PC.Completed && r.info.accountId == e.account && r.info.newPhoneHash == e.newHash
    && r.info.authorisingStepupJti == e.stepupJti && r.info.verificationMethod == e.verificationMethod
  }

  ghost predicate HasRow(p: PC.Table, e: Rail.PhoneChanged) {
    exists id :: id in p.rows && Matches(p.rows[id], e)
  }

  ghost predicate HasEvent(events: seq<Rail.PhoneChanged>, r: PC.Change) {
    exists i :: 0 <= i < |events| && Matches(r, events[i])
  }

  /** One swap for each completed change, and one completed change for each swap. */
  ghost predicate SwapInv(p: PC.Table, events: seq<Rail.PhoneChanged>) {
    && (forall i :: 0 <= i < |events| ==> HasRow(p, events[i]))
    && (forall id :: id in p.rows && p.rows[id].state == PC.Completed ==> HasEvent(events, p.rows[id]))
    && (forall i, j :: 0 <= i < j < |events| ==> events[i].stepupJti != events[j].stepupJti)
  }

  /** What is completed stays as it is, and nothing new is completed. */
  ghost predicate SameCompleted(p: PC.Table, p': PC.Table) {
    forall id ::
      (id in p.rows && p.rows[id].state == PC.Completed) ||
      (id in p'.rows && p'.rows[id].state == PC.Completed) ==>
        id in p.rows && id in p'.rows && p'.rows[id] == p.rows[id]
  }

  lemma QuietStepsKeepSwapInv(p: PC.Table, p': PC.Table, events: seq<Rail.PhoneChanged>)
    requires SwapInv(p, events) && SameCompleted(p, p')
    ensures SwapInv(p', events)
  {
    forall i | 0 <= i < |events| ensures HasRow(p', events[i]) {
      assert HasRow(p, events[i]);
      var id :| id in p.rows && Matches(p.rows[id], events[i]);
      assert id in p'.rows && p'.rows[id] == p.rows[id];
    }
  }

  ghost predicate DistinctJtis(p: PC.Table) {
    forall a, b :: a in p.rows && b in p.rows && a != b ==>
        p.rows[a].info.authorisingStepupJti != p.rows[b].info.authorisingStepupJti
  }

  /** Completing exactly one more change, with its event. */
  lemma SwapKeepsSwapInv(p: PC.Table, p': PC.Table, events: seq<Rail.PhoneChanged>, id: Id, e: Rail.PhoneChanged)
    requires SwapInv(p, events) && DistinctJtis(p')
    requires id in p'.rows && Matches(p'.rows[id], e) && (id in p.rows ==> p.rows[id].state != PC.Completed)
    requires forall a :: a != id ==> (a in p.rows <==> a in p'.rows) && (a in p.rows ==> p'.rows[a] == p.rows[a])
    ensures SwapInv(p', events + [e])
  {
    var events' := events + [e];
    forall i | 0 <= i < |events| ensures HasRow(p', events'[i]) && events[i].stepupJti != e.stepupJti {
      assert HasRow(p, events[i]);
      var a :| a in p.rows && Matches(p.rows[a], events[i]);
      assert a != id && p'.rows[a] == p.rows[a];
    }
    assert HasRow(p', e);
    forall a | a in p'.rows && p'.rows[a].state == PC.Completed ensures HasEvent(events', p'.rows[a]) {
      if a == id {
        assert Matches(p'.rows[a], events'[|events|]);
      } else {
        assert HasEvent(events, p.rows[a]);
        var i :| 0 <= i < |events| && Matches(p.rows[a], events[i]);
        assert Matches(p'.rows[a], events'[i]);
      }
    }
  }
}
