/**
 * Phone-change rows (src/repositories/phoneChanges.memory.ts,
 * src/repositories/phoneChanges.ts). The table keeps its rows in insertion order, which
 * is the order `findActiveForAccount` scans.
 */
module PhoneChanges {
  import opened Domain
  import AC = AuthChallenges

  datatype ChangeState = Initiated | CooldownActive | Completed | Cancelled
  datatype Method = OtpToOldPhone | OtpToNewPhoneWithStepUpToOld

  datatype CancelReason =
    | SupersededByNewInitiate
    | AwaitingConfirmationExpired
    | ChallengeMissing
    | ChallengeNotPending(status: AC.Status)
    | MaxOtpAttempts
    | PhoneRecordVanished

  /** The part of a change fixed at creation. */
  datatype ChangeInfo = ChangeInfo(
    id: Id, accountId: Id, verificationMethod: Method, newPhoneHash: string, newPhoneEncrypted: seq<bv8>,
    challengeNewId: Option<Id>, authorisingStepupJti: Id, expiresAt: Time)

  datatype Change = Change(
    info: ChangeInfo, state: ChangeState, initiatedAt: Time,
    completedAt: Option<Time>, cancelledAt: Option<Time>, cancelReason: Option<CancelReason>)

  datatype Table = Table(order: seq<Id>, rows: map<Id, Change>)

  ghost predicate WellFormed(t: Table) {
    && (forall id :: id in t.order <==> id in t.rows)
    && (forall id :: id in t.rows ==> t.rows[id].info.id == id)
  }

  predicate IsActiveState(s: ChangeState) {
    s == Initiated || s == CooldownActive
  }

  predicate IsActiveFor(t: Table, id: Id, accountId: Id) {
    id in t.rows && t.rows[id].info.accountId == accountId && IsActiveState(t.rows[id].state)
  }

  function WithChange(t: Table, info: ChangeInfo, state: ChangeState, now: Time): Table {
    if info.id in t.rows then t
    else Table(t.order + [info.id], t.rows[info.id := Change(info, state, now, None, None, None)])
  }

  function WithCompleted(t: Table, id: Id, now: Time): Table {
    if id in t.rows && t.rows[id].state == CooldownActive then
      t.(rows := t.rows[id := t.rows[id].(state := Completed, completedAt := Some(now))])
    else t
  }

  function WithCancelled(t: Table, id: Id, reason: CancelReason, now: Time): Table {
    if id in t.rows && IsActiveState(t.rows[id].state) then
      t.(rows := t.rows[id := t.rows[id].(state := Cancelled, cancelledAt := Some(now), cancelReason := Some(reason))])
    else t
  }

  /** The first active row of the account among `order`. */
  function FirstActive(t: Table, order: seq<Id>, accountId: Id): (r: Option<Id>)
    ensures r.Some? ==> r.value in order && IsActiveFor(t, r.value, accountId)
    ensures r.None? ==> forall id :: id in order ==> !IsActiveFor(t, id, accountId)
  {
    if order == [] then None
    else if IsActiveFor(t, order[0], accountId) then Some(order[0])
    else FirstActive(t, order[1..], accountId)
  }

  function FindActive(t: Table, accountId: Id): Option<Id> {
    FirstActive(t, t.order, accountId)
  }

  /** Cancelling what a new initiate found, if it found anything. */
  function WithExistingCancelled(t: Table, accountId: Id, now: Time): Table {
    var existing := FindActive(t, accountId);
    if existing.Some? then WithCancelled(t, existing.value, SupersededByNewInitiate, now) else t
  }

  class PhoneChangesRepo {
    var table: Table

    constructor ()
      ensures table == Table([], map[])
    {
      table := Table([], map[]);
    }

    method Create(info: ChangeInfo, state: ChangeState, now: Time) returns (created: bool)
      modifies this
      ensures table == WithChange(old(table), info, state, now)
      ensures created <==> info.id !in old(table).rows
    {
      if info.id in table.rows { return false; }
      table := Table(table.order + [info.id], table.rows[info.id := Change(info, state, now, None, None, None)]);
      return true;
    }

    method FindById(id: Id) returns (r: Option<Change>)
      ensures r == if id in table.rows then Some(table.rows[id]) else None
    {
      r := if id in table.rows then Some(table.rows[id]) else None;
    }

    method FindActiveForAccount(accountId: Id) returns (r: Option<Id>)
      ensures r == FindActive(table, accountId)
    {
      for i := 0 to |table.order|
        invariant FindActive(table, accountId) == FirstActive(table, table.order[i..], accountId)
      {
        var id := table.order[i];
        if id in table.rows && table.rows[id].info.accountId == accountId
           && (table.rows[id].state == Initiated || table.rows[id].state == CooldownActive) {
          return Some(id);
        }
      }
      return None;
    }

    method Complete(id: Id, completedAt: Time) returns (updated: bool)
      modifies this
      ensures table == WithCompleted(old(table), id, completedAt)
      ensures updated <==> id in old(table).rows && old(table).rows[id].state == CooldownActive
    {
      if id !in table.rows || table.rows[id].state != CooldownActive { return false; }
      var r := table.rows[id];
      table := table.(rows := table.rows[id := r.(state := Completed, completedAt := Some(completedAt))]);
      return true;
    }

    method Cancel(id: Id, reason: CancelReason, cancelledAt: Time) returns (updated: bool)
      modifies this
      ensures table == WithCancelled(old(table), id, reason, cancelledAt)
      ensures updated <==> id in old(table).rows && IsActiveState(old(table).rows[id].state)
    {
      if id !in table.rows { return false; }
      var r := table.rows[id];
      if r.state == Completed || r.state == Cancelled { return false; }
      table := table.(rows := table.rows[id := r.(state := Cancelled, cancelledAt := Some(cancelledAt),
          cancelReason := Some(reason))]);
      return true;
    }
  }
}
