/** The tier assignments of an account partition all time from its creation onward. */
module TierTimeline {
  import opened Domain
  import opened Customers

  /** The account's assignments, in the order they were written. */
  function Of(h: seq<Assignment>, uuid: Id): seq<Assignment> {
    if h == [] then [] else (if h[0].account == uuid then [h[0]] else []) + Of(h[1..], uuid)
  }

  lemma {:induction false} OfAppended(h: seq<Assignment>, a: Assignment, uuid: Id)
    ensures Of(h + [a], uuid) == Of(h, uuid) + if a.account == uuid then [a] else []
  {
    if h == [] {
      assert h + [a] == [a];
    } else {
      var first, more := if h[0].account == uuid then [h[0]] else [], if a.account == uuid then [a] else [];
      assert (h + [a])[0] == h[0] && (h + [a])[1..] == h[1..] + [a];
      OfAppended(h[1..], a, uuid);
      assert Of(h + [a], uuid) == first + Of(h[1..] + [a], uuid);
      assert first + (Of(h[1..], uuid) + more) == (first + Of(h[1..], uuid)) + more;
    }
  }

  lemma {:induction false} OfClosed(h: seq<Assignment>, closed: Id, uuid: Id, now: Time)
    ensures Of(CloseFirstOpen(h, closed, now), uuid) == if uuid == closed then CloseFirstOpen(Of(h, uuid), uuid, now)
        else Of(h, uuid)
  {
    if h != [] {
      OfClosed(h[1..], closed, uuid, now);
      var rest := Of(h[1..], uuid);
      assert [h[0]] + rest == Of(h, uuid) || rest == Of(h, uuid);
      if IsOpenFor(h[0], closed) {
        assert CloseFirstOpen(h, closed, now)[1..] == h[1..];
      } else {
        assert CloseFirstOpen(h, closed, now)[1..] == CloseFirstOpen(h[1..], closed, now);
      }
      if h[0].account == uuid {
        assert Of(h, uuid)[1..] == rest;
      }
    }
  }

  lemma {:induction false} OfMembers(h: seq<Assignment>, uuid: Id)
    ensures forall a :: a in Of(h, uuid) <==> a in h && a.account == uuid
  {
    if h != [] {
      OfMembers(h[1..], uuid);
    }
  }

  /**
   * Each assignment starts where the one before it ended; only the last is open; the first is
   * tier_0, from creation.
   */
  ghost predicate Chain(p: seq<Assignment>, createdAt: Time) {
    && p != []
    && p[0].assignedAt == createdAt && p[0].tier == Tier0
    && p[|p| - 1].endedAt.None?
    && (forall i :: 0 <= i < |p| - 1 ==>
        p[i].endedAt == Some(p[i + 1].assignedAt) && p[i].assignedAt <= p[i + 1].assignedAt)
  }

  ghost predicate Timeline(s: Store, uuid: Id)
    requires uuid in s.accounts
  {
    var p := Of(s.history, uuid);
    && Chain(p, s.accounts[uuid].createdAt)
    && GetTier(s.accounts[uuid]) == TierSnapshot(p[|p| - 1].tier, p[|p| - 1].assignedAt, p[|p| - 1].reason)
  }

  /** No assignment belongs to an unknown account, and none was written after `now`. */
  ghost predicate WrittenBy(s: Store, now: Time) {
    forall i :: 0 <= i < |s.history| ==> s.history[i].account in s.accounts && s.history[i].assignedAt <= now
  }

  ghost predicate TimelineInv(s: Store, now: Time) {
    WrittenBy(s, now) && forall u :: u in s.accounts ==> Timeline(s, u)
  }

  lemma {:induction false} UnknownHasNoAssignments(h: seq<Assignment>, uuid: Id)
    requires forall i :: 0 <= i < |h| ==> h[i].account != uuid
    ensures Of(h, uuid) == []
  {
    if h != [] {
      UnknownHasNoAssignments(h[1..], uuid);
    }
  }

  lemma {:induction false} CloseEndsTheChain(p: seq<Assignment>, uuid: Id, now: Time)
    requires p != [] && IsOpenFor(p[|p| - 1], uuid) && forall i :: 0 <= i < |p| - 1 ==> p[i].endedAt.Some?
    ensures CloseFirstOpen(p, uuid, now) == p[|p| - 1 := p[|p| - 1].(endedAt := Some(now))]
  {
    CloseFirstOpenAt(p, uuid, now, |p| - 1);
  }

  lemma CreateKeepsTimelines(s: Store, uuid: Id, hash: string, encrypted: seq<bv8>, appId: Id, assignmentId: Id,
      before: Time, now: Time)
    requires TimelineInv(s, before) && before <= now
    ensures TimelineInv(WithCustomer(s, uuid, hash, encrypted, appId, assignmentId, now), now)
  {
    if CreateOutcome(s, uuid, hash, assignmentId) == Done {
      var s' := WithCustomer(s, uuid, hash, encrypted, appId, assignmentId, now);
      forall u | u in s'.accounts ensures Timeline(s', u) {
        OfAppended(s.history, s'.history[|s.history|], u);
        if u == uuid {
          UnknownHasNoAssignments(s.history, uuid);
        } else {
          assert Timeline(s, u);
        }
      }
    }
  }

  lemma {:induction false} CloseKeepsStarts(h: seq<Assignment>, uuid: Id, now: Time)
    ensures |CloseFirstOpen(h, uuid, now)| == |h|
    ensures forall i :: 0 <= i < |h| ==> CloseFirstOpen(h, uuid, now)[i].(endedAt := None) == h[i].(endedAt := None)
  {
    if h != [] && !IsOpenFor(h[0], uuid) {
      CloseKeepsStarts(h[1..], uuid, now);
    }
  }

  lemma SetTierKeepsTimelines(s: Store, uuid: Id, tier: Tier, reason: string, assignmentId: Id, before: Time, now: Time)
    requires TimelineInv(s, before) && before <= now
    ensures TimelineInv(WithTier(s, uuid, tier, reason, assignmentId, now), now)
  {
    if SetTierOutcome(s, uuid, assignmentId) == Done {
      var s' := WithTier(s, uuid, tier, reason, assignmentId, now);
      var closed := CloseFirstOpen(s.history, uuid, now);
      CloseKeepsStarts(s.history, uuid, now);
      forall i | 0 <= i < |s'.history| ensures s'.history[i].account in s'.accounts && s'.history[i].assignedAt <= now {
        if i < |closed| {
          assert closed[i].(endedAt := None) == s.history[i].(endedAt := None);
        }
      }
      forall u | u in s'.accounts ensures Timeline(s', u) {
        assert Timeline(s, u);
        SetTierTimeline(s, uuid, tier, reason, assignmentId, before, now, u);
      }
    }
  }

  lemma SetTierTimeline(s: Store, uuid: Id, tier: Tier, reason: string, assignmentId: Id,
      before: Time, now: Time, u: Id)
    requires u in s.accounts && Timeline(s, u) && WrittenBy(s, before) && before <= now &&
        SetTierOutcome(s, uuid, assignmentId) == Done
    ensures Timeline(WithTier(s, uuid, tier, reason, assignmentId, now), u)
  {
    var a := Assignment(assignmentId, uuid, tier, reason, now, None);
    OfClosed(s.history, uuid, u, now);
    OfAppended(CloseFirstOpen(s.history, uuid, now), a, u);
    if u == uuid {
      OfMembers(s.history, u);
      var p := Of(s.history, u);
      assert p[|p| - 1] in s.history;
      ChainExtends(p, s.accounts[u].createdAt, a);
    } else {
      assert Of(s.history, u) + [] == Of(s.history, u);
    }
  }

  lemma ChainExtends(p: seq<Assignment>, createdAt: Time, a: Assignment)
    requires Chain(p, createdAt) && p[|p| - 1].account == a.account &&
        p[|p| - 1].assignedAt <= a.assignedAt && a.endedAt.None?
    ensures Chain(CloseFirstOpen(p, a.account, a.assignedAt) + [a], createdAt)
  {
    forall i | 0 <= i < |p| - 1 ensures p[i].endedAt.Some? {
      assert p[i].endedAt == Some(p[i + 1].assignedAt);
    }
    CloseEndsTheChain(p, a.account, a.assignedAt);
  }

  /** Any change that leaves the history and the accounts' tiers alone. */
  lemma SameTiersKeepTimelines(s: Store, s': Store, before: Time, now: Time)
    requires TimelineInv(s, before) && before <= now
    requires s'.history == s.history && s'.accounts.Keys == s.accounts.Keys
    requires forall u :: u in s.accounts ==>
        GetTier(s'.accounts[u]) == GetTier(s.accounts[u]) && s'.accounts[u].createdAt == s.accounts[u].createdAt
    ensures TimelineInv(s', now)
  {
    forall u | u in s'.accounts ensures Timeline(s', u) {
      assert Timeline(s, u);
    }
  }

  predicate Covers(a: Assignment, t: Time) {
    a.assignedAt <= t && (a.endedAt.None? || t < a.endedAt.value)
  }

  lemma {:induction false} ChainIsSorted(p: seq<Assignment>, i: nat, j: nat)
    requires i <= j < |p|
    requires forall k :: 0 <= k < |p| - 1 ==> p[k].assignedAt <= p[k + 1].assignedAt
    ensures p[i].assignedAt <= p[j].assignedAt
    decreases j - i
  {
    if i < j {
      ChainIsSorted(p, i, j - 1);
    }
  }

  lemma {:induction false} SomeAssignmentCovers(p: seq<Assignment>, createdAt: Time, t: Time, k: nat) returns (i: nat)
    requires Chain(p, createdAt) && k < |p| && p[0].assignedAt <= t
    requires k < |p| - 1 ==> t < p[k + 1].assignedAt
    ensures i < |p| && Covers(p[i], t)
  {
    if p[k].assignedAt <= t {
      i := k;
    } else {
      i := SomeAssignmentCovers(p, createdAt, t, k - 1);
    }
  }

  ghost predicate OnlyOneCovers(p: seq<Assignment>, i: nat, t: Time) {
    i < |p| && Covers(p[i], t) && forall j :: 0 <= j < |p| && Covers(p[j], t) ==> j == i
  }

  /** Exactly one assignment covers the instant. */
  ghost predicate CoveredOnce(p: seq<Assignment>, t: Time) {
    exists i: nat :: OnlyOneCovers(p, i, t)
  }

  /** Every instant from creation on is covered by exactly one assignment; earlier instants by none. */
  lemma EveryInstantHasOneTier(s: Store, uuid: Id, now: Time, t: Time)
    requires TimelineInv(s, now) && uuid in s.accounts
    ensures var p := Of(s.history, uuid);
      if t < s.accounts[uuid].createdAt then forall i :: 0 <= i < |p| ==> !Covers(p[i], t) else CoveredOnce(p, t)
  {
    assert Timeline(s, uuid);
    var p := Of(s.history, uuid);
    if t < s.accounts[uuid].createdAt {
      forall i | 0 <= i < |p| ensures !Covers(p[i], t) { ChainIsSorted(p, 0, i); }
    } else {
      var i := SomeAssignmentCovers(p, s.accounts[uuid].createdAt, t, |p| - 1);
      forall j | 0 <= j < |p| && Covers(p[j], t) ensures j == i {
        if i < j { ChainIsSorted(p, i + 1, j); }
        if j < i { ChainIsSorted(p, j + 1, i); }
      }
      assert OnlyOneCovers(p, i, t);
    }
  }

  /** The present is covered by the open assignment, and that is what `getTier` reports. */
  lemma PresentTierIsTheOpenOne(s: Store, uuid: Id, now: Time)
    requires TimelineInv(s, now) && uuid in s.accounts
    ensures var p := Of(s.history, uuid);
      && p != [] && Covers(p[|p| - 1], now)
      && (forall i :: 0 <= i < |p| ==> (p[i].endedAt.None? <==> i == |p| - 1))
      && GetTier(s.accounts[uuid]) == TierSnapshot(p[|p| - 1].tier, p[|p| - 1].assignedAt, p[|p| - 1].reason)
  {
    assert Timeline(s, uuid);
    OfMembers(s.history, uuid);
    var p := Of(s.history, uuid);
    assert p[|p| - 1] in s.history;
    forall i | 0 <= i < |p| ensures p[i].endedAt.None? <==> i == |p| - 1 {
      assert i < |p| - 1 ==> p[i].endedAt == Some(p[i + 1].assignedAt);
    }
  }

  // Assignment ids.

  ghost predicate UniqueIds(h: seq<Assignment>) {
    forall i, j :: 0 <= i < j < |h| ==> h[i].id != h[j].id
  }

  lemma TierWritesKeepIdsUnique(s: Store, uuid: Id, tier: Tier, reason: string, assignmentId: Id, now: Time)
    requires UniqueIds(s.history)
    ensures UniqueIds(WithTier(s, uuid, tier, reason, assignmentId, now).history)
  {
    if SetTierOutcome(s, uuid, assignmentId) == Done {
      CloseKeepsStarts(s.history, uuid, now);
      var closed := CloseFirstOpen(s.history, uuid, now);
      forall i | 0 <= i < |closed| ensures closed[i].id == s.history[i].id && closed[i].id != assignmentId {
        assert closed[i].(endedAt := None) == s.history[i].(endedAt := None);
      }
    }
  }

  lemma CreationsKeepIdsUnique(s: Store, uuid: Id, hash: string, encrypted: seq<bv8>, appId: Id,
      assignmentId: Id, now: Time)
    requires UniqueIds(s.history)
    ensures UniqueIds(WithCustomer(s, uuid, hash, encrypted, appId, assignmentId, now).history)
  {}

  lemma {:induction false} OfKeepsIdsUnique(h: seq<Assignment>, uuid: Id)
    requires UniqueIds(h)
    ensures UniqueIds(Of(h, uuid))
  {
    if h != [] {
      OfKeepsIdsUnique(h[1..], uuid);
      OfMembers(h[1..], uuid);
      forall k | 0 <= k < |Of(h[1..], uuid)| ensures Of(h[1..], uuid)[k].id != h[0].id {
        var a := Of(h[1..], uuid)[k];
        assert a in h[1..];
      }
    }
  }
}
