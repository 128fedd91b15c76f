/**
 * The customer store: accounts, the phone-hash index and the tier history
 * (src/repositories/customers.memory.ts, src/repositories/customers.ts). The structure is
 * that of the in-memory repository; the uniqueness rules are those of the schema
 * (src/db/schema.ts:117-131), whose violations leave the store unchanged.
 */
module Customers {
  import opened Domain

  datatype AccountState =
    PendingOnboarding | Active | FrozenKyc | FrozenAml | ClosedCustomer | ClosedOperator | ClosedRegulatory
  datatype Tier = Tier0 | Tier1 | Tier2
  datatype RiderClass = NoRider | RiderTier1 | RiderTier2

  const DEFAULT_TIER_REASON := "rule_based_tier_0_default"

  datatype Account = Account(
    uuid: Id, state: AccountState, tier: Tier, tierAssignedAt: Option<Time>, tierReason: Option<string>,
    riderClass: RiderClass, createdAt: Time, phoneHash: string, phoneEncrypted: seq<bv8>,
    cooldownUntil: Option<Time>, lastChangeAt: Time, originAppId: Id)

  datatype Assignment = Assignment(id: Id, account: Id, tier: Tier, reason: string, assignedAt: Time,
      endedAt: Option<Time>)

  datatype Store = Store(accounts: map<Id, Account>, phoneHashes: map<string, Id>, history: seq<Assignment>)

  const EMPTY := Store(map[], map[], [])

  datatype Outcome = Done | NotFound | NotAllowed | PhoneTaken | DuplicateKey

  datatype TierSnapshot = TierSnapshot(tier: Tier, assignedAt: Time, reason: string)

  predicate HasAssignment(h: seq<Assignment>, id: Id) {
    exists i :: 0 <= i < |h| && h[i].id == id
  }

  function NewAccount(uuid: Id, hash: string, encrypted: seq<bv8>, appId: Id, now: Time): Account {
    Account(uuid, PendingOnboarding, Tier0, None, None, NoRider, now, hash, encrypted, None, now, appId)
  }

  function CreateOutcome(s: Store, uuid: Id, hash: string, assignmentId: Id): Outcome {
    if hash in s.phoneHashes then PhoneTaken
    else if uuid in s.accounts || HasAssignment(s.history, assignmentId) then DuplicateKey
    else Done
  }

  function WithCustomer(s: Store, uuid: Id, hash: string, encrypted: seq<bv8>, appId: Id,
      assignmentId: Id, now: Time): Store {
    if CreateOutcome(s, uuid, hash, assignmentId) == Done then
      Store(s.accounts[uuid := NewAccount(uuid, hash, encrypted, appId, now)],
            s.phoneHashes[hash := uuid],
            s.history + [Assignment(assignmentId, uuid, Tier0, DEFAULT_TIER_REASON, now, None)])
    else s
  }

  function SwapOutcome(s: Store, uuid: Id, hash: string): Outcome {
    if uuid !in s.accounts then NotFound
    else if hash in s.phoneHashes && s.phoneHashes[hash] != uuid then PhoneTaken
    else Done
  }

  function Rebound(a: Account, hash: string, encrypted: seq<bv8>, cooldownUntil: Time, now: Time): Account {
    a.(phoneHash := hash, phoneEncrypted := encrypted, cooldownUntil := Some(cooldownUntil), lastChangeAt := now)
  }

  /** The in-memory update: drop the old hash from the index, then set the new one. */
  function UnguardedSwap(s: Store, uuid: Id, hash: string, encrypted: seq<bv8>, cooldownUntil: Time, now: Time): Store
    requires uuid in s.accounts
  {
    s.(accounts := s.accounts[uuid := Rebound(s.accounts[uuid], hash, encrypted, cooldownUntil, now)],
       phoneHashes := (s.phoneHashes - {s.accounts[uuid].phoneHash})[hash := uuid])
  }

  function WithPhone(s: Store, uuid: Id, hash: string, encrypted: seq<bv8>, cooldownUntil: Time, now: Time): Store {
    if SwapOutcome(s, uuid, hash) == Done then UnguardedSwap(s, uuid, hash, encrypted, cooldownUntil, now) else s
  }

  function ChangeStateOutcome(s: Store, uuid: Id, fromStates: set<AccountState>): Outcome {
    if uuid !in s.accounts then NotFound
    else if s.accounts[uuid].state !in fromStates then NotAllowed
    else Done
  }

  function WithState(s: Store, uuid: Id, fromStates: set<AccountState>, toState: AccountState): Store {
    if ChangeStateOutcome(s, uuid, fromStates) == Done then
      s.(accounts := s.accounts[uuid := s.accounts[uuid].(state := toState)])
    else s
  }

  function WithRiderClass(s: Store, uuid: Id, riderClass: RiderClass): Store {
    if uuid in s.accounts then s.(accounts := s.accounts[uuid := s.accounts[uuid].(riderClass := riderClass)]) else s
  }

  predicate IsOpenFor(a: Assignment, uuid: Id) {
    a.account == uuid && a.endedAt.None?
  }

  /** End the first open assignment of the account, if there is one. */
  function CloseFirstOpen(h: seq<Assignment>, uuid: Id, now: Time): seq<Assignment> {
    if h == [] then []
    else if IsOpenFor(h[0], uuid) then [h[0].(endedAt := Some(now))] + h[1..]
    else [h[0]] + CloseFirstOpen(h[1..], uuid, now)
  }

  function SetTierOutcome(s: Store, uuid: Id, assignmentId: Id): Outcome {
    if uuid !in s.accounts then NotFound
    else if HasAssignment(s.history, assignmentId) then DuplicateKey
    else Done
  }

  function WithTier(s: Store, uuid: Id, tier: Tier, reason: string, assignmentId: Id, now: Time): Store {
    if SetTierOutcome(s, uuid, assignmentId) == Done then
      s.(accounts := s.accounts[uuid := s.accounts[uuid].(tier := tier, tierAssignedAt := Some(now),
          tierReason := Some(reason))],
         history := CloseFirstOpen(s.history, uuid, now) + [Assignment(assignmentId, uuid, tier, reason, now, None)])
    else s
  }

  function GetTier(a: Account): TierSnapshot {
    TierSnapshot(
      a.tier,
      if a.tierAssignedAt.Some? then a.tierAssignedAt.value else a.createdAt,
      if a.tierReason.Some? then a.tierReason.value else DEFAULT_TIER_REASON)
  }

  // The phone-hash index.

  /** The index and the accounts' stored hashes are inverse to each other. */
  ghost predicate IndexAgrees(s: Store) {
    && (forall u :: u in s.accounts ==>
        s.accounts[u].uuid == u && s.accounts[u].phoneHash in s.phoneHashes &&
            s.phoneHashes[s.accounts[u].phoneHash] == u)
    && (forall h :: h in s.phoneHashes ==>
        s.phoneHashes[h] in s.accounts && s.accounts[s.phoneHashes[h]].phoneHash == h)
  }

  lemma CreateKeepsIndex(s: Store, uuid: Id, hash: string, encrypted: seq<bv8>, appId: Id, assignmentId: Id, now: Time)
    requires IndexAgrees(s)
    ensures IndexAgrees(WithCustomer(s, uuid, hash, encrypted, appId, assignmentId, now))
  {}

  lemma SwapKeepsIndex(s: Store, uuid: Id, hash: string, encrypted: seq<bv8>, cooldownUntil: Time, now: Time)
    requires IndexAgrees(s)
    ensures IndexAgrees(WithPhone(s, uuid, hash, encrypted, cooldownUntil, now))
  {
    if uuid in s.accounts {
      UnguardedSwapKeepsIndexExactly(s, uuid, hash, encrypted, cooldownUntil, now);
    }
  }

  /**
   * Without the UNIQUE constraint the in-memory swap keeps the index in agreement exactly
   * when no other account holds the new number.
   */
  lemma UnguardedSwapKeepsIndexExactly(s: Store, uuid: Id, hash: string, encrypted: seq<bv8>,
      cooldownUntil: Time, now: Time)
    requires IndexAgrees(s) && uuid in s.accounts
    ensures IndexAgrees(UnguardedSwap(s, uuid, hash, encrypted, cooldownUntil, now)) <==>
      !(exists other :: other in s.accounts && other != uuid && s.accounts[other].phoneHash == hash)
  {
    var s' := UnguardedSwap(s, uuid, hash, encrypted, cooldownUntil, now);
    if other :| other in s.accounts && other != uuid && s.accounts[other].phoneHash == hash {
      assert s'.accounts[other].phoneHash == hash && s'.phoneHashes[hash] == uuid;
    } else {
      assert hash in s.phoneHashes ==> s.phoneHashes[hash] == uuid;
    }
  }

  class CustomersRepo {
    var accounts: map<Id, Account>
    var phoneHashes: map<string, Id>
    var tierHistory: seq<Assignment>

    function Contents(): Store
      reads this
    {
      Store(accounts, phoneHashes, tierHistory)
    }

    constructor ()
      ensures Contents() == EMPTY
    {
      accounts, phoneHashes, tierHistory := map[], map[], [];
    }

    method Create(uuid: Id, hash: string, encrypted: seq<bv8>, appId: Id, assignmentId: Id, now: Time)
        returns (r: Outcome)
      modifies this
      ensures r == CreateOutcome(old(Contents()), uuid, hash, assignmentId)
      ensures Contents() == WithCustomer(old(Contents()), uuid, hash, encrypted, appId, assignmentId, now)
    {
      if hash in phoneHashes { return PhoneTaken; }
      if uuid in accounts || HasAssignment(tierHistory, assignmentId) { return DuplicateKey; }
      accounts := accounts[uuid := NewAccount(uuid, hash, encrypted, appId, now)];
      phoneHashes := phoneHashes[hash := uuid];
      tierHistory := tierHistory + [Assignment(assignmentId, uuid, Tier0, DEFAULT_TIER_REASON, now, None)];
      return Done;
    }

    method FindById(uuid: Id) returns (r: Option<Account>)
      ensures r == if uuid in accounts then Some(accounts[uuid]) else None
    {
      r := if uuid in accounts then Some(accounts[uuid]) else None;
    }

    method FindByPhoneHash(hash: string) returns (r: Option<Id>)
      ensures r == if hash in phoneHashes then Some(phoneHashes[hash]) else None
    {
      r := if hash in phoneHashes then Some(phoneHashes[hash]) else None;
    }

    method SwapPhone(uuid: Id, hash: string, encrypted: seq<bv8>, cooldownUntil: Time, now: Time) returns (r: Outcome)
      modifies this
      ensures r == SwapOutcome(old(Contents()), uuid, hash)
      ensures Contents() == WithPhone(old(Contents()), uuid, hash, encrypted, cooldownUntil, now)
    {
      if uuid !in accounts { return NotFound; }
      if hash in phoneHashes && phoneHashes[hash] != uuid { return PhoneTaken; }
      var a := accounts[uuid];
      phoneHashes := phoneHashes - {a.phoneHash};
      a := a.(phoneHash := hash, phoneEncrypted := encrypted);
      a := a.(cooldownUntil := Some(cooldownUntil), lastChangeAt := now);
      accounts := accounts[uuid := a];
      phoneHashes := phoneHashes[a.phoneHash := uuid];
      return Done;
    }

    method ChangeState(uuid: Id, fromStates: set<AccountState>, toState: AccountState)
        returns (r: Outcome, fromState: AccountState)
      modifies this
      ensures r == ChangeStateOutcome(old(Contents()), uuid, fromStates)
      ensures Contents() == WithState(old(Contents()), uuid, fromStates, toState)
      ensures r == Done ==> uuid in old(accounts) && fromState == old(accounts)[uuid].state
    {
      fromState := toState;
      if uuid !in accounts { return NotFound, fromState; }
      fromState := accounts[uuid].state;
      if fromState !in fromStates { return NotAllowed, fromState; }
      accounts := accounts[uuid := accounts[uuid].(state := toState)];
      return Done, fromState;
    }

    method SetTier(uuid: Id, tier: Tier, reason: string, assignmentId: Id, now: Time)
        returns (r: Outcome, fromTier: Tier)
      modifies this
      ensures r == SetTierOutcome(old(Contents()), uuid, assignmentId)
      ensures Contents() == WithTier(old(Contents()), uuid, tier, reason, assignmentId, now)
      ensures r == Done ==> uuid in old(accounts) && fromTier == old(accounts)[uuid].tier
    {
      fromTier := tier;
      if uuid !in accounts { return NotFound, fromTier; }
      if HasAssignment(tierHistory, assignmentId) { return DuplicateKey, fromTier; }
      var a := accounts[uuid];
      fromTier := a.tier;
      accounts := accounts[uuid := a.(tier := tier, tierAssignedAt := Some(now), tierReason := Some(reason))];
      var open := FindOpen(uuid);
      ghost var before := tierHistory;
      if open < |tierHistory| {
        tierHistory := tierHistory[open := tierHistory[open].(endedAt := Some(now))];
      }
      CloseFirstOpenAt(before, uuid, now, open);
      tierHistory := tierHistory + [Assignment(assignmentId, uuid, tier, reason, now, None)];
      return Done, fromTier;
    }

    /** The index of the first open assignment of the account, or the length of the history. */
    method FindOpen(uuid: Id) returns (i: nat)
      ensures i <= |tierHistory|
      ensures forall j :: 0 <= j < i ==> !IsOpenFor(tierHistory[j], uuid)
      ensures i < |tierHistory| ==> IsOpenFor(tierHistory[i], uuid)
    {
      i := 0;
      while i < |tierHistory| && !(tierHistory[i].account == uuid && tierHistory[i].endedAt.None?)
        invariant i <= |tierHistory|
        invariant forall j :: 0 <= j < i ==> !IsOpenFor(tierHistory[j], uuid)
      {
        i := i + 1;
      }
    }

    method SetRiderClass(uuid: Id, riderClass: RiderClass) returns (found: bool)
      modifies this
      ensures Contents() == WithRiderClass(old(Contents()), uuid, riderClass)
      ensures found <==> uuid in accounts
    {
      if uuid !in accounts { return false; }
      accounts := accounts[uuid := accounts[uuid].(riderClass := riderClass)];
      return true;
    }
  }

  lemma {:induction false} CloseFirstOpenAt(h: seq<Assignment>, uuid: Id, now: Time, i: nat)
    requires i <= |h| && forall j :: 0 <= j < i ==> !IsOpenFor(h[j], uuid)
    requires i < |h| ==> IsOpenFor(h[i], uuid)
    ensures CloseFirstOpen(h, uuid, now) == if i < |h| then h[i := h[i].(endedAt := Some(now))] else h
  {
    if h != [] && i > 0 {
      CloseFirstOpenAt(h[1..], uuid, now, i - 1);
    }
  }
}
