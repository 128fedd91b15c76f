/**
 * What the records and the topics say about each other: the stored ciphertexts, the
 * phone-hash index, the account events against the repository, and the chain of
 * PHONE_CHANGED events. Each lemma is about one elementary change of the stores.
 */
module RailRecords {
  import opened Domain
  import PC = PhoneChanges
  import Cust = Customers
  import Crypto = PhoneCrypto
  import PhoneNormalise
  import Rail

  // Ciphertexts.

  /** The ciphertext opens to a canonical number whose hash is the one stored beside it. */
  predicate SealsHash(c: Crypto.Crypto, hash: string, encrypted: Crypto.Bytes) {
    var o := c.open(encrypted);
    o.Some? && PhoneNormalise.Canonical(o.value) && c.hash(o.value) == hash
  }

  ghost predicate PhonesInv(c: Crypto.Crypto, s: Cust.Store, p: PC.Table) {
    && Cust.IndexAgrees(s)
    && (forall u :: u in s.accounts ==> SealsHash(c, s.accounts[u].phoneHash, s.accounts[u].phoneEncrypted))
    && RowsSealed(c, p)
  }

  /** The accounts keep their phone records. */
  ghost predicate SamePhones(accounts: map<Id, Cust.Account>, accounts': map<Id, Cust.Account>) {
    && accounts'.Keys == accounts.Keys
    && forall u :: u in accounts ==>
      var a, a' := accounts[u], accounts'[u];
      && a'.uuid == a.uuid && a'.phoneHash == a.phoneHash && a'.phoneEncrypted == a.phoneEncrypted
      && a'.cooldownUntil == a.cooldownUntil
  }

  lemma QuietStepsKeepPhonesInv(c: Crypto.Crypto, s: Cust.Store, s': Cust.Store, p: PC.Table)
    requires PhonesInv(c, s, p) && SamePhones(s.accounts, s'.accounts) && s'.phoneHashes == s.phoneHashes
    ensures PhonesInv(c, s', p)
  {
    forall u | u in s'.accounts ensures SealsHash(c, s'.accounts[u].phoneHash, s'.accounts[u].phoneEncrypted) {
      assert SealsHash(c, s.accounts[u].phoneHash, s.accounts[u].phoneEncrypted);
    }
  }

  ghost predicate RowsSealed(c: Crypto.Crypto, p: PC.Table) {
    forall id :: id in p.rows ==> SealsHash(c, p.rows[id].info.newPhoneHash, p.rows[id].info.newPhoneEncrypted)
  }

  lemma SwapKeepsPhonesInv(
      c: Crypto.Crypto, s: Cust.Store, p: PC.Table, p': PC.Table, uuid: Id, hash: string, sealed: Crypto.Bytes,
          cooldownUntil: Time, now: Time)
    requires PhonesInv(c, s, p) && SealsHash(c, hash, sealed) && RowsSealed(c, p')
    ensures PhonesInv(c, Cust.WithPhone(s, uuid, hash, sealed, cooldownUntil, now), p')
  {
    var s' := Cust.WithPhone(s, uuid, hash, sealed, cooldownUntil, now);
    Cust.SwapKeepsIndex(s, uuid, hash, sealed, cooldownUntil, now);
    forall u | u in s'.accounts ensures SealsHash(c, s'.accounts[u].phoneHash, s'.accounts[u].phoneEncrypted) {
      assert u in s.accounts && SealsHash(c, s.accounts[u].phoneHash, s.accounts[u].phoneEncrypted);
    }
  }

  /** A swap leaves states, tiers and creation times alone. */
  lemma SwapKeepsViews(s: Cust.Store, uuid: Id, hash: string, sealed: Crypto.Bytes, cooldownUntil: Time, now: Time)
    ensures var s' := Cust.WithPhone(s, uuid, hash, sealed, cooldownUntil, now);
      && s'.history == s.history && s'.accounts.Keys == s.accounts.Keys
      && forall u :: u in s.accounts ==>
        var a, a' := s.accounts[u], s'.accounts[u];
        a'.state == a.state && a'.tier == a.tier && Cust.GetTier(a') == Cust.GetTier(a) && a'.createdAt == a.createdAt
  {}

  lemma CreateKeepsPhonesInv(
      c: Crypto.Crypto, s: Cust.Store, p: PC.Table, uuid: Id, hash: string, sealed: Crypto.Bytes, appId: Id,
          assignmentId: Id, now: Time)
    requires PhonesInv(c, s, p) && SealsHash(c, hash, sealed)
    ensures PhonesInv(c, Cust.WithCustomer(s, uuid, hash, sealed, appId, assignmentId, now), p)
  {
    var s' := Cust.WithCustomer(s, uuid, hash, sealed, appId, assignmentId, now);
    Cust.CreateKeepsIndex(s, uuid, hash, sealed, appId, assignmentId, now);
    forall u | u in s'.accounts ensures SealsHash(c, s'.accounts[u].phoneHash, s'.accounts[u].phoneEncrypted) {
      assert u in s.accounts ==> SealsHash(c, s.accounts[u].phoneHash, s.accounts[u].phoneEncrypted);
    }
  }

  lemma NormalisedSealsHash(c: Crypto.Crypto, phone: string, iv: Crypto.Bytes)
    requires Crypto.Opens(c) && |iv| == Crypto.IV_LEN && PhoneNormalise.Normalise(phone).Some?
    ensures var n := PhoneNormalise.Normalise(phone).value; SealsHash(c, c.hash(n), c.seal(iv, n))
  {}

  // Account events.

  datatype View = View(state: Cust.AccountState, tier: Cust.Tier)

  /** One event applied by a consumer; `None` when it does not fit what came before. */
  function Consume(m: map<Id, View>, e: Rail.AccountEvent): Option<map<Id, View>> {
    match e
    case AccountCreated(u, state, tier) => if u in m then None else Some(m[u := View(state, tier)])
    case StateChanged(u, _, fromState, toState) =>
      if u in m && m[u].state == fromState then Some(m[u := m[u].(state := toState)]) else None
    case TierChanged(u, fromTier, toTier, _) =>
      if u in m && m[u].tier == fromTier then Some(m[u := m[u].(tier := toTier)]) else None
  }

  function Replay(es: seq<Rail.AccountEvent>): Option<map<Id, View>> {
    if es == [] then Some(map[])
    else
      var before := Replay(es[..|es| - 1]);
      if before.None? then None else Consume(before.value, es[|es| - 1])
  }

  function Views(accounts: map<Id, Cust.Account>): map<Id, View> {
    map u | u in accounts :: View(accounts[u].state, accounts[u].tier)
  }

  /** Replaying the topic, checking every from-value on the way, yields the repository's states and tiers. */
  ghost predicate ReplayInv(accounts: map<Id, Cust.Account>, es: seq<Rail.AccountEvent>) {
    Replay(es) == Some(Views(accounts))
  }

  lemma EventKeepsReplayInv(accounts: map<Id, Cust.Account>, accounts': map<Id, Cust.Account>,
      es: seq<Rail.AccountEvent>, e: Rail.AccountEvent)
    requires ReplayInv(accounts, es) && Consume(Views(accounts), e) == Some(Views(accounts'))
    ensures ReplayInv(accounts', es + [e])
  {
    assert (es + [e])[..|es|] == es;
  }

  lemma SameViewsKeepReplayInv(accounts: map<Id, Cust.Account>, accounts': map<Id, Cust.Account>,
      es: seq<Rail.AccountEvent>)
    requires ReplayInv(accounts, es) && accounts'.Keys == accounts.Keys
    requires forall u :: u in accounts ==>
        accounts'[u].state == accounts[u].state && accounts'[u].tier == accounts[u].tier
    ensures ReplayInv(accounts', es)
  {
    assert Views(accounts') == Views(accounts);
  }

  lemma CreationIsReplayed(s: Cust.Store, es: seq<Rail.AccountEvent>, uuid: Id, hash: string, encrypted: Crypto.Bytes,
      appId: Id, assignmentId: Id, now: Time)
    requires ReplayInv(s.accounts, es) && Cust.CreateOutcome(s, uuid, hash, assignmentId) == Cust.Done
    ensures ReplayInv(Cust.WithCustomer(s, uuid, hash, encrypted, appId, assignmentId, now).accounts,
                      es + [Rail.AccountCreated(uuid, Cust.PendingOnboarding, Cust.Tier0)])
  {
    var accounts' := Cust.WithCustomer(s, uuid, hash, encrypted, appId, assignmentId, now).accounts;
    assert Views(accounts') == Views(s.accounts)[uuid := View(Cust.PendingOnboarding, Cust.Tier0)];
    EventKeepsReplayInv(s.accounts, accounts', es, Rail.AccountCreated(uuid, Cust.PendingOnboarding, Cust.Tier0));
  }

  lemma TransitionIsReplayed(s: Cust.Store, es: seq<Rail.AccountEvent>, k: Rail.TransitionKind, uuid: Id)
    requires ReplayInv(s.accounts, es) && Cust.ChangeStateOutcome(s, uuid, Rail.FromStates(k)) == Cust.Done
    ensures ReplayInv(Cust.WithState(s, uuid, Rail.FromStates(k), Rail.ToState(k)).accounts,
                      es + [Rail.StateChanged(uuid, k, s.accounts[uuid].state, Rail.ToState(k))])
  {
    var accounts' := Cust.WithState(s, uuid, Rail.FromStates(k), Rail.ToState(k)).accounts;
    assert Views(accounts') == Views(s.accounts)[uuid := View(Rail.ToState(k), s.accounts[uuid].tier)];
    EventKeepsReplayInv(s.accounts, accounts', es, Rail.StateChanged(uuid, k, s.accounts[uuid].state, Rail.ToState(k)));
  }

  lemma TierIsReplayed(s: Cust.Store, es: seq<Rail.AccountEvent>, uuid: Id, tier: Cust.Tier, reason: string,
      assignmentId: Id, now: Time)
    requires ReplayInv(s.accounts, es) && Cust.SetTierOutcome(s, uuid, assignmentId) == Cust.Done
    ensures ReplayInv(Cust.WithTier(s, uuid, tier, reason, assignmentId, now).accounts,
                      es + [Rail.TierChanged(uuid, s.accounts[uuid].tier, tier, reason)])
  {
    var accounts' := Cust.WithTier(s, uuid, tier, reason, assignmentId, now).accounts;
    assert Views(accounts') == Views(s.accounts)[uuid := View(s.accounts[uuid].state, tier)];
    EventKeepsReplayInv(s.accounts, accounts', es, Rail.TierChanged(uuid, s.accounts[uuid].tier, tier, reason));
  }

  // Phone events.

  /**
   * Reading the topic backwards from the hash now bound to an account, through its
   * PHONE_CHANGED events: the hash it was created with, or `None` at a broken link.
   */
  function Rewind(es: seq<Rail.PhoneChanged>, uuid: Id, bound: string): Option<string> {
    if es == [] then Some(bound)
    else
      var e := es[|es| - 1];
      if e.account != uuid then Rewind(es[..|es| - 1], uuid, bound)
      else if e.newHash != bound then None
      else Rewind(es[..|es| - 1], uuid, e.oldHash)
  }

  /** Every event belongs to a known account, and no account's chain is broken. */
  ghost predicate RewindInv(accounts: map<Id, Cust.Account>, es: seq<Rail.PhoneChanged>) {
    && (forall i :: 0 <= i < |es| ==> es[i].account in accounts)
    && (forall u :: u in accounts ==> Rewind(es, u, accounts[u].phoneHash).Some?)
  }

  lemma {:induction false} NoEventsNoRewind(es: seq<Rail.PhoneChanged>, uuid: Id, bound: string)
    requires forall i :: 0 <= i < |es| ==> es[i].account != uuid
    ensures Rewind(es, uuid, bound) == Some(bound)
  {
    if es != [] {
      NoEventsNoRewind(es[..|es| - 1], uuid, bound);
    }
  }

  /** A swap with its event does not change where any account's chain begins. */
  lemma SwapKeepsOrigins(accounts: map<Id, Cust.Account>, es: seq<Rail.PhoneChanged>, e: Rail.PhoneChanged,
      a: Cust.Account, uuid: Id)
    requires e.account in accounts && e.oldHash == accounts[e.account].phoneHash &&
        a.phoneHash == e.newHash && uuid in accounts
    ensures Rewind(es + [e], uuid, accounts[e.account := a][uuid].phoneHash) == Rewind(es, uuid,
        accounts[uuid].phoneHash)
  {
    assert (es + [e])[..|es|] == es;
  }

  lemma SwapKeepsRewindInv(accounts: map<Id, Cust.Account>, es: seq<Rail.PhoneChanged>,
      e: Rail.PhoneChanged, a: Cust.Account)
    requires RewindInv(accounts, es)
    requires e.account in accounts && e.oldHash == accounts[e.account].phoneHash && a.phoneHash == e.newHash
    ensures RewindInv(accounts[e.account := a], es + [e])
  {
    forall u | u in accounts ensures Rewind(es + [e], u, accounts[e.account := a][u].phoneHash).Some? {
      SwapKeepsOrigins(accounts, es, e, a, u);
    }
  }

  lemma QuietStepsKeepRewindInv(accounts: map<Id, Cust.Account>, accounts': map<Id, Cust.Account>,
      es: seq<Rail.PhoneChanged>)
    requires RewindInv(accounts, es)
    requires forall u :: u in accounts ==> u in accounts' && accounts'[u].phoneHash == accounts[u].phoneHash
    ensures RewindInv(accounts', es)
  {
    forall u | u in accounts' && u !in accounts ensures Rewind(es, u, accounts'[u].phoneHash).Some? {
      NoEventsNoRewind(es, u, accounts'[u].phoneHash);
    }
  }
}
