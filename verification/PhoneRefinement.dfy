/**
 * The phone-change steps of `PhoneInterleaving`, taken by one request without interruption, do to
 * customers, changes and swaps what the atomic handlers of `Rail` do.
 */
module PhoneRefinement {
  import opened Domain
  import opened PhoneInterleaving
  import AC = AuthChallenges
  import PC = PhoneChanges
  import Cust = Customers
  import Crypto = PhoneCrypto
  import PhoneNormalise
  import Rail
  import RailServe
  import RailOutcomes
  import RailInvariants

  function SwapsOf(es: seq<Rail.PhoneChanged>): seq<Swap> {
    seq(|es|, i requires 0 <= i < |es| => Swap(es[i].account, es[i].changedAt))
  }

  /** The same customers, changes and swaps. */
  predicate Tracks(s: State, r: Rail.State) {
    s.customers == r.customers && s.changes == r.changes && s.swaps == SwapsOf(r.phoneEvents)
  }

  function Steps(s: State, es: seq<Event>, now: Time): State
    decreases |es|
  {
    if es == [] then s else Steps(Apply(s, es[0], now), es[1..], now)
  }

  lemma FirstStep(s: State, a: Event, rest: seq<Event>, now: Time)
    ensures Steps(s, [a] + rest, now) == Steps(Apply(s, a, now), rest, now)
  {
    assert ([a] + rest)[1..] == rest;
  }

  lemma FiveSteps(s: State, a: Event, b: Event, c: Event, d: Event, e: Event, now: Time)
    ensures Steps(s, [a, b, c, d, e], now) ==
      Apply(Apply(Apply(Apply(Apply(s, a, now), b, now), c, now), d, now), e, now)
  {
    var s1 := Apply(s, a, now);
    var s2 := Apply(s1, b, now);
    var s3 := Apply(s2, c, now);
    assert [a, b, c, d, e] == [a] + [b, c, d, e] && [b, c, d, e] == [b] + [c, d, e] && [c, d, e] == [c] + [d, e];
    assert [d, e] == [d] + [e] && [e] == [e] + [];
    FirstStep(s, a, [b, c, d, e], now);
    FirstStep(s1, b, [c, d, e], now);
    FirstStep(s2, c, [d, e], now);
    FirstStep(s3, d, [e], now);
    FirstStep(Apply(s3, d, now), e, [], now);
  }

  // Initiate, after its token has been accepted and its gates passed.

  /** The calls of an initiate, those that do not apply doing nothing. */
  function InitiateSteps(env: Rail.Env, r: Rail.State, q: Rail.Initiation, jti: Id, now: Time, pid: Pid): seq<Event>
    requires PhoneNormalise.Normalise(q.newPhone).Some?
  {
    var n := PhoneNormalise.Normalise(q.newPhone).value;
    var hash, sealed := env.crypto.hash(n), env.crypto.seal(q.iv, n);
    [StartInitiate(pid, q.uuid), FindActive(pid), Supersede(pid),
     if q.verificationMethod == PC.OtpToOldPhone then
       CreateAtOnce(pid, Rail.AtOnceInfo(q, jti, hash, sealed, now))
     else if q.challengeId in r.challenges then Cancel(pid)
     else CreateAwaiting(pid, Rail.AwaitingInfo(q, jti, hash, sealed, now)),
     SwapPhone(pid)]
  }

  /** The first three calls: the gate, the look for an active change, and its cancellation. */
  lemma UpToDraft(s: State, pid: Pid, account: Id, now: Time)
    requires pid !in s.procs && PastCooldownOf(s, account, now)
    ensures var s' := Apply(Apply(Apply(s, StartInitiate(pid, account), now), FindActive(pid), now),
        Supersede(pid), now);
      && s'.customers == s.customers && s'.swaps == s.swaps
      && s'.changes == PC.WithExistingCancelled(s.changes, account, now)
      && pid in s'.procs && s'.procs[pid] == Drafting(account, now)
  {
    var s1 := Apply(s, StartInitiate(pid, account), now);
    assert s1.procs[pid] == Gated(account);
    var s2 := Apply(s1, FindActive(pid), now);
    assert s2.changes == s.changes;
  }

  predicate PastCooldownOf(s: State, account: Id, now: Time) {
    Initiated(s, account, now) == Gated(account)
  }

  lemma AtOnceTracks(s: State, r: Rail.State, q: Rail.Initiation, jti: Id, hash: string, sealed: seq<bv8>, now: Time,
      pid: Pid)
    requires Tracks(s, r) && pid in s.procs && s.procs[pid] == Drafting(q.uuid, now)
    ensures Tracks(Apply(Apply(s, CreateAtOnce(pid, Rail.AtOnceInfo(q, jti, hash, sealed, now)), now), SwapPhone(pid),
                         now),
                   Rail.ChangeAtOnce(r, q, jti, hash, sealed, now).state)
  {
    var info := Rail.AtOnceInfo(q, jti, hash, sealed, now);
    var s1 := Apply(s, CreateAtOnce(pid, info), now);
    if q.changeId !in r.changes.rows {
      var written := PC.WithChange(r.changes, info, PC.Completed, now);
      assert PC.WithCompleted(written, q.changeId, now) == written;
      assert PC.WithCancelled(written, q.changeId, PC.PhoneRecordVanished, now) == written;
      assert s1.changes == written && s1.procs[pid] == Swapping(Binding(q.uuid, hash, sealed, now), None);
    }
  }

  lemma AwaitTracks(s: State, r: Rail.State, q: Rail.Initiation, jti: Id, hash: string, sealed: seq<bv8>, now: Time,
      pid: Pid)
    requires Tracks(s, r) && pid in s.procs && s.procs[pid] == Drafting(q.uuid, now)
    ensures var create := if q.challengeId in r.challenges then Cancel(pid)
        else CreateAwaiting(pid, Rail.AwaitingInfo(q, jti, hash, sealed, now));
      Tracks(Apply(Apply(s, create, now), SwapPhone(pid), now),
             Rail.AwaitConfirmation(r, q, jti, hash, sealed, now).state)
  {}

  /** An initiate served without interruption. */
  lemma UninterruptedInitiate(
      env: Rail.Env, s: State, r: Rail.State, q: Rail.Initiation, jti: Id, now: Time, pid: Pid)
    requires Tracks(s, r) && pid !in s.procs && RailServe.PassesGates(env, r, q, now)
    ensures Tracks(Steps(s, InitiateSteps(env, r, q, jti, now, pid), now), Rail.Authorised(env, r, q, jti, now).state)
  {
    var es := InitiateSteps(env, r, q, jti, now, pid);
    var n := PhoneNormalise.Normalise(q.newPhone).value;
    var hash, sealed := env.crypto.hash(n), env.crypto.seal(q.iv, n);
    var superseded := r.(changes := PC.WithExistingCancelled(r.changes, q.uuid, now));
    FiveSteps(s, es[0], es[1], es[2], es[3], es[4], now);
    UpToDraft(s, pid, q.uuid, now);
    var s3 := Apply(Apply(Apply(s, es[0], now), es[1], now), es[2], now);
    RailServe.AuthorisedOutcome(env, r, q, jti, now);
    if q.verificationMethod == PC.OtpToOldPhone {
      AtOnceTracks(s3, superseded, q, jti, hash, sealed, now, pid);
    } else {
      AwaitTracks(s3, superseded, q, jti, hash, sealed, now, pid);
    }
  }

  // Confirm.

  /** What the challenge of a change makes of an answer. */
  function VerdictOf(c: AC.Challenge, matches: bool): Verdict {
    if c.status != AC.Pending then Unusable(PC.ChallengeNotPending(c.status))
    else if matches then Right
    else if c.attemptsUsed >= 2 then LastWrong
    else Wrong
  }

  function ConfirmSteps(pid: Pid, uuid: Id, id: Id, verdict: Verdict): seq<Event> {
    [StartConfirm(pid, uuid, id), Answer(pid, verdict), SwapPhone(pid), Complete(pid), Cancel(pid)]
  }

  lemma SwapTracks(s: State, r: Rail.State, i: PC.ChangeInfo, now: Time, pid: Pid)
    requires Tracks(s, r) && pid in s.procs
    requires s.procs[pid] ==
      Swapping(Binding(i.accountId, i.newPhoneHash, i.newPhoneEncrypted, now), Some(i.id))
    ensures Tracks(Apply(Apply(Apply(s, SwapPhone(pid), now), Complete(pid), now), Cancel(pid), now),
                   RailServe.CompletedIfSwapped(r, i, now))
  {}

  lemma AnswerTracks(s: State, r: Rail.State, change: PC.Change, cid: Id, matches: bool, now: Time, pid: Pid)
    requires Tracks(s, r) && pid in s.procs && s.procs[pid] == Answering(change.info.accountId, change.info)
    requires cid in r.challenges && r.challenges[cid].info.otpHash.Some?
    ensures var verdict := VerdictOf(r.challenges[cid], matches);
      Tracks(Apply(Apply(Apply(Apply(s, Answer(pid, verdict), now), SwapPhone(pid), now), Complete(pid), now),
                   Cancel(pid), now),
             Rail.Answered(r, change, cid, matches, now).state)
  {
    var c := r.challenges[cid];
    var verdict := VerdictOf(c, matches);
    var s1 := Apply(s, Answer(pid, verdict), now);
    RailServe.AnsweredOutcome(r, change, cid, matches, now);
    if verdict.Right? {
      SwapTracks(s1, Rail.Consuming(r, cid, AC.Success(now), true), change.info, now, pid);
    }
  }

  /** No change waits for this confirmation, or too late: at most the overdue change is cancelled. */
  lemma EarlyTracks(s: State, r: Rail.State, uuid: Id, id: Id, matches: bool, now: Time, pid: Pid)
    requires Tracks(s, r) && pid !in s.procs && !RailOutcomes.Awaits(r, uuid, id, now)
    ensures Tracks(Apply(Apply(s, StartConfirm(pid, uuid, id), now), Cancel(pid), now),
                   Rail.Confirm(r, uuid, id, matches, now).state)
    ensures var s1 := Apply(s, StartConfirm(pid, uuid, id), now);
      pid in s1.procs && (s1.procs[pid].Finished? || s1.procs[pid].Cancelling?)
  {
    RailOutcomes.EarlyRefusal(r, uuid, id, matches, now);
  }

  /** Calls that do not apply do nothing. */
  lemma OthersDoNothing(s: State, pid: Pid, verdict: Verdict, now: Time)
    requires pid in s.procs && (s.procs[pid].Finished? || s.procs[pid].Cancelling?)
    ensures Apply(Apply(Apply(s, Answer(pid, verdict), now), SwapPhone(pid), now), Complete(pid), now) == s
  {}

  lemma StartReads(s: State, r: Rail.State, uuid: Id, id: Id, now: Time, pid: Pid)
    requires Tracks(s, r) && pid !in s.procs && RailOutcomes.Awaits(r, uuid, id, now)
    ensures var s1 := Apply(s, StartConfirm(pid, uuid, id), now);
      Tracks(s1, r) && pid in s1.procs && s1.procs[pid] == Answering(uuid, r.changes.rows[id].info)
  {}

  lemma WaitingConfirms(r: Rail.State, uuid: Id, id: Id, matches: bool, now: Time)
    requires RailOutcomes.Awaits(r, uuid, id, now)
    requires var i := r.changes.rows[id].info; i.challengeNewId.Some? && i.challengeNewId.value in r.challenges
    ensures Rail.Confirm(r, uuid, id, matches, now) ==
      Rail.Answered(r, r.changes.rows[id], r.changes.rows[id].info.challengeNewId.value, matches, now)
  {}

  /** The verdict on a code for a waiting change; without one there is nothing to be answered. */
  function VerdictFor(r: Rail.State, uuid: Id, id: Id, matches: bool, now: Time): Verdict {
    if RailOutcomes.Awaits(r, uuid, id, now) && r.changes.rows[id].info.challengeNewId.Some? &&
      r.changes.rows[id].info.challengeNewId.value in r.challenges then
      VerdictOf(r.challenges[r.changes.rows[id].info.challengeNewId.value], matches)
    else Wrong
  }

  /** A confirm served without interruption. */
  lemma UninterruptedConfirm(
      env: Rail.Env, s: State, r: Rail.State, uuid: Id, id: Id, matches: bool, now: Time, pid: Pid)
    requires Tracks(s, r) && pid !in s.procs && RailInvariants.Inv(env, r, now)
    ensures Tracks(Steps(s, ConfirmSteps(pid, uuid, id, VerdictFor(r, uuid, id, matches, now)), now),
                   Rail.Confirm(r, uuid, id, matches, now).state)
  {
    var verdict := VerdictFor(r, uuid, id, matches, now);
    var s1 := Apply(s, StartConfirm(pid, uuid, id), now);
    FiveSteps(s, StartConfirm(pid, uuid, id), Answer(pid, verdict), SwapPhone(pid), Complete(pid), Cancel(pid), now);
    if RailOutcomes.Awaits(r, uuid, id, now) {
      RailOutcomes.AwaitingOwnsChallenge(env, r, id, now);
      StartReads(s, r, uuid, id, now, pid);
      WaitingConfirms(r, uuid, id, matches, now);
      AnswerTracks(s1, r, r.changes.rows[id], r.changes.rows[id].info.challengeNewId.value, matches, now, pid);
    } else {
      EarlyTracks(s, r, uuid, id, matches, now, pid);
      OthersDoNothing(s1, pid, verdict, now);
    }
  }
}
