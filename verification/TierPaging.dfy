/**
 * Reading the tier history page by page (src/repositories/customers.memory.ts:195-222),
 * while other requests keep changing tiers.
 */
module TierPaging {
  import opened Domain
  import opened Customers
  import opened TierTimeline

  const DEFAULT_HISTORY_LIMIT: int := 50
  const MAX_HISTORY_LIMIT: int := 200

  datatype Page = Page(items: seq<Assignment>, cursor: Option<Id>)

  function Clamp(limit: Option<int>): (r: int)
    ensures 1 <= r <= MAX_HISTORY_LIMIT
  {
    var l := if limit.Some? then limit.value else DEFAULT_HISTORY_LIMIT;
    var atLeastOne := if l < 1 then 1 else l;
    if atLeastOne > MAX_HISTORY_LIMIT then MAX_HISTORY_LIMIT else atLeastOne
  }

  /** The listing order: later start first, and on equal starts the larger id first. */
  predicate Newer(a: Assignment, b: Assignment) {
    a.assignedAt > b.assignedAt || (a.assignedAt == b.assignedAt && a.id > b.id)
  }

  function Place(a: Assignment, sorted: seq<Assignment>): seq<Assignment> {
    if sorted == [] then [a]
    else if Newer(sorted[0], a) then [sorted[0]] + Place(a, sorted[1..])
    else [a] + sorted
  }

  function NewestFirst(p: seq<Assignment>): seq<Assignment> {
    if p == [] then [] else Place(p[|p| - 1], NewestFirst(p[..|p| - 1]))
  }

  function IndexOf(all: seq<Assignment>, id: Id): nat {
    if all == [] then 0 else if all[0].id == id then 0 else 1 + IndexOf(all[1..], id)
  }

  function Start(all: seq<Assignment>, cursor: Option<Id>): nat {
    if cursor.None? then 0
    else if IndexOf(all, cursor.value) < |all| then IndexOf(all, cursor.value) else 0
  }

  function PageOf(all: seq<Assignment>, limit: Option<int>, cursor: Option<Id>): Page {
    var start := Start(all, cursor);
    var end := start + Clamp(limit);
    if end < |all| then Page(all[start..end], Some(all[end].id))
    else if start <= |all| then Page(all[start..], None) else Page([], None)
  }

  function GetTierHistory(s: Store, uuid: Id, limit: Option<int>, cursor: Option<Id>): Option<Page> {
    if uuid !in s.accounts then None
    else Some(PageOf(NewestFirst(Of(s.history, uuid)), limit, cursor))
  }

  /** A page has as many entries as asked for, between 1 and 200 and else 50, unless it is the last and has fewer. */
  lemma PageHasAskedLength(all: seq<Assignment>, limit: Option<int>, cursor: Option<Id>)
    ensures var p := PageOf(all, limit, cursor);
      var n := if limit.None? then 50 else if limit.value < 1 then 1
          else if limit.value > 200 then 200 else limit.value;
      |p.items| <= n && (p.cursor.Some? ==> |p.items| == n)
  {}

  // What is sorted, and how it changes when a tier is set.

  lemma {:induction false} PlaceMembers(a: Assignment, sorted: seq<Assignment>)
    ensures multiset(Place(a, sorted)) == multiset(sorted) + multiset{a}
  {
    if sorted != [] {
      assert sorted == [sorted[0]] + sorted[1..];
      if Newer(sorted[0], a) {
        PlaceMembers(a, sorted[1..]);
      }
    }
  }

  ghost predicate Sorted(l: seq<Assignment>) {
    forall i, j :: 0 <= i < j < |l| ==> !Newer(l[j], l[i])
  }

  lemma {:induction false} PlaceSorts(a: Assignment, sorted: seq<Assignment>)
    requires Sorted(sorted)
    ensures Sorted(Place(a, sorted))
  {
    if sorted != [] && Newer(sorted[0], a) {
      PlaceSorts(a, sorted[1..]);
      PlaceMembers(a, sorted[1..]);
      var rest := Place(a, sorted[1..]);
      forall j | 0 <= j < |rest| ensures !Newer(rest[j], sorted[0]) {
        assert rest[j] in multiset(rest);
        if rest[j] != a {
          assert rest[j] in sorted[1..];
        }
      }
    }
  }

  /** The listing is a permutation of the account's assignments, newest first. */
  lemma {:induction false} NewestFirstSorts(p: seq<Assignment>)
    ensures Sorted(NewestFirst(p)) && multiset(NewestFirst(p)) == multiset(p)
  {
    if p != [] {
      NewestFirstSorts(p[..|p| - 1]);
      PlaceSorts(p[|p| - 1], NewestFirst(p[..|p| - 1]));
      PlaceMembers(p[|p| - 1], NewestFirst(p[..|p| - 1]));
      assert p == p[..|p| - 1] + [p[|p| - 1]];
    }
  }

  /** An assignment without its end, the one field a later write can change. */
  function Bare(a: Assignment): Assignment {
    a.(endedAt := None)
  }

  function BareAll(l: seq<Assignment>): seq<Assignment> {
    seq(|l|, i requires 0 <= i < |l| => Bare(l[i]))
  }

  lemma {:induction false} PlaceBare(a: Assignment, sorted: seq<Assignment>)
    ensures BareAll(Place(a, sorted)) == Place(Bare(a), BareAll(sorted))
  {
    if sorted != [] && Newer(sorted[0], a) {
      PlaceBare(a, sorted[1..]);
      assert BareAll(sorted)[1..] == BareAll(sorted[1..]);
      assert BareAll([sorted[0]] + Place(a, sorted[1..])) == [Bare(sorted[0])] + BareAll(Place(a, sorted[1..]));
    } else {
      assert BareAll([a] + sorted) == [Bare(a)] + BareAll(sorted);
    }
  }

  lemma {:induction false} NewestFirstBare(p: seq<Assignment>)
    ensures BareAll(NewestFirst(p)) == NewestFirst(BareAll(p))
  {
    if p != [] {
      NewestFirstBare(p[..|p| - 1]);
      PlaceBare(p[|p| - 1], NewestFirst(p[..|p| - 1]));
      assert BareAll(p)[..|p| - 1] == BareAll(p[..|p| - 1]);
    }
  }

  lemma NewestGoesFirst(p: seq<Assignment>, a: Assignment)
    requires forall b :: b in p ==> Newer(a, b)
    ensures NewestFirst(p + [a]) == [a] + NewestFirst(p)
  {
    assert (p + [a])[..|p|] == p;
    NewestFirstSorts(p);
    if NewestFirst(p) != [] {
      assert NewestFirst(p)[0] in multiset(NewestFirst(p));
      assert NewestFirst(p)[0] in p;
    }
  }

  /** The listing of the account, ends aside. */
  function Listing(s: Store, uuid: Id): seq<Assignment> {
    BareAll(NewestFirst(Of(s.history, uuid)))
  }

  datatype Write = Write(account: Id, tier: Tier, reason: string, assignmentId: Id, now: Time)

  function Written(s: Store, w: Write): Store {
    WithTier(s, w.account, w.tier, w.reason, w.assignmentId, w.now)
  }

  /**
   * A write to the listed account starts later than everything the account has (or at the same time
   * with a larger id).
   */
  ghost predicate IsLater(s: Store, uuid: Id, w: Write) {
    w.account == uuid ==> forall b ::
        b in Of(s.history, uuid) ==> Newer(Assignment(w.assignmentId, uuid, w.tier, w.reason, w.now, None), b)
  }

  /** A clock that has moved on since the last write is enough. */
  lemma LaterClockIsLater(s: Store, uuid: Id, w: Write, before: Time)
    requires WrittenBy(s, before) && before < w.now
    ensures IsLater(s, uuid, w)
  {
    OfMembers(s.history, uuid);
  }

  lemma WriteExtendsListing(s: Store, uuid: Id, w: Write)
    requires IsLater(s, uuid, w)
    ensures Listing(Written(s, w), uuid) == Listing(s, uuid)
      || (w.account == uuid && Listing(Written(s, w),
          uuid) == [Assignment(w.assignmentId, uuid, w.tier, w.reason, w.now, None)] + Listing(s, uuid))
  {
    if SetTierOutcome(s, w.account, w.assignmentId) == Done {
      var a := Assignment(w.assignmentId, w.account, w.tier, w.reason, w.now, None);
      var closed := CloseFirstOpen(s.history, w.account, w.now);
      OfClosed(s.history, w.account, uuid, w.now);
      OfAppended(closed, a, uuid);
      if w.account == uuid {
        NewestClosesAndLeads(Of(s.history, uuid), a);
      } else {
        assert Of(s.history, uuid) + [] == Of(s.history, uuid);
      }
    }
  }

  /** Closing the open assignment changes an end only, and the new assignment comes first. */
  lemma NewestClosesAndLeads(p: seq<Assignment>, a: Assignment)
    requires a.endedAt.None? && forall b :: b in p ==> Newer(a, b)
    ensures BareAll(NewestFirst(CloseFirstOpen(p, a.account, a.assignedAt) + [a])) == [a] + BareAll(NewestFirst(p))
  {
    var q := CloseFirstOpen(p, a.account, a.assignedAt);
    ClosedKeepsOrder(p, a);
    NewestGoesFirst(q, a);
    NewestFirstBare(q);
    NewestFirstBare(p);
    BareAllCons(a, NewestFirst(q));
  }

  lemma BareAllCons(a: Assignment, l: seq<Assignment>)
    ensures BareAll([a] + l) == [Bare(a)] + BareAll(l)
  {}

  lemma ClosedKeepsOrder(p: seq<Assignment>, a: Assignment)
    requires forall b :: b in p ==> Newer(a, b)
    ensures var q := CloseFirstOpen(p, a.account, a.assignedAt); BareAll(q) == BareAll(p) && forall b ::
        b in q ==> Newer(a, b)
  {
    var q := CloseFirstOpen(p, a.account, a.assignedAt);
    CloseKeepsStarts(p, a.account, a.assignedAt);
    assert BareAll(q) == BareAll(p);
    forall b | b in q ensures Newer(a, b) {
      var i :| 0 <= i < |q| && q[i] == b;
      assert Bare(q[i]) == Bare(p[i]) && p[i] in p;
    }
  }

  ghost predicate AllLater(s: Store, uuid: Id, ws: seq<Write>)
    decreases |ws|
  {
    ws != [] ==> IsLater(s, uuid, ws[0]) && AllLater(Written(s, ws[0]), uuid, ws[1..])
  }

  function AllWritten(s: Store, ws: seq<Write>): Store
    decreases |ws|
  {
    if ws == [] then s else AllWritten(Written(s, ws[0]), ws[1..])
  }

  ghost predicate IsSuffix(l: seq<Assignment>, of: seq<Assignment>) {
    |l| <= |of| && of[|of| - |l|..] == l
  }

  lemma SuffixTransitive(l0: seq<Assignment>, l1: seq<Assignment>, l2: seq<Assignment>)
    requires IsSuffix(l0, l1) && IsSuffix(l1, l2)
    ensures IsSuffix(l0, l2)
  {
    assert l2[|l2| - |l0|..] == l2[|l2| - |l1|..][|l1| - |l0|..];
  }

  lemma {:induction false} WritesExtendListing(s: Store, uuid: Id, ws: seq<Write>)
    requires AllLater(s, uuid, ws)
    ensures IsSuffix(Listing(s, uuid), Listing(AllWritten(s, ws), uuid))
    decreases |ws|
  {
    if ws != [] {
      WriteExtendsListing(s, uuid, ws[0]);
      WritesExtendListing(Written(s, ws[0]), uuid, ws[1..]);
      SuffixTransitive(Listing(s, uuid), Listing(Written(s, ws[0]), uuid), Listing(AllWritten(s, ws), uuid));
    }
  }

  // One page.

  /** Distinct ids are a matter of the multiset alone. */
  lemma {:induction false} SortingKeepsIdsUnique(p: seq<Assignment>)
    requires UniqueIds(p)
    ensures UniqueIds(NewestFirst(p))
  {
    if p != [] {
      var a, rest := p[|p| - 1], p[..|p| - 1];
      SortingKeepsIdsUnique(rest);
      NewestFirstSorts(rest);
      forall b | b in NewestFirst(rest) ensures b.id != a.id {
        assert b in multiset(rest);
        assert b in rest;
      }
      PlaceKeepsIdsUnique(a, NewestFirst(rest));
    }
  }

  lemma {:induction false} PlaceKeepsIdsUnique(a: Assignment, sorted: seq<Assignment>)
    requires UniqueIds(sorted) && forall b :: b in sorted ==> b.id != a.id
    ensures UniqueIds(Place(a, sorted))
  {
    if sorted != [] && Newer(sorted[0], a) {
      PlaceKeepsIdsUnique(a, sorted[1..]);
      PlaceMembers(a, sorted[1..]);
      forall b | b in Place(a, sorted[1..]) ensures b.id != sorted[0].id {
        assert b in multiset(Place(a, sorted[1..]));
        assert b == a || b in sorted[1..];
      }
    }
  }

  lemma {:induction false} IndexOfFinds(all: seq<Assignment>, k: nat)
    requires k < |all| && UniqueIds(all)
    ensures IndexOf(all, all[k].id) == k
  {
    if k > 0 {
      assert all[0].id != all[k].id;
      assert UniqueIds(all[1..]) by {
        forall i, j | 0 <= i < j < |all[1..]| ensures all[1..][i].id != all[1..][j].id {
          assert all[i + 1].id != all[j + 1].id;
        }
      }
      IndexOfFinds(all[1..], k - 1);
    }
  }

  lemma BareAllSlice(l: seq<Assignment>, lo: nat, hi: nat)
    requires lo <= hi <= |l|
    ensures BareAll(l[lo..hi]) == BareAll(l)[lo..hi]
  {}

  /** The page starts where the original listing's entry `n` now is. */
  lemma PageStarts(all: seq<Assignment>, l0: seq<Assignment>, n: nat, cursor: Option<Id>)
    requires UniqueIds(all) && IsSuffix(l0, BareAll(all))
    requires if cursor.None? then n == 0 && |all| == |l0| else n < |l0| && cursor.value == l0[n].id
    ensures |l0| <= |all| && Start(all, cursor) == |all| - |l0| + n
    ensures forall m: nat :: m < |l0| ==> Bare(all[|all| - |l0| + m]) == l0[m]
  {
    var k := |all| - |l0| + n;
    forall m: nat | m < |l0| ensures Bare(all[|all| - |l0| + m]) == l0[m] {
      assert BareAll(all)[|all| - |l0|..][m] == l0[m];
    }
    if cursor.Some? {
      assert all[k].id == l0[n].id;
      IndexOfFinds(all, k);
    }
  }

  lemma DropThenSlice(l: seq<Assignment>, k: nat, n: nat, m: nat)
    requires n <= m && k + m <= |l|
    ensures l[k..][n..m] == l[k + n..k + m]
  {}

  /** Cutting the grown listing is cutting the original one. */
  lemma SliceOfSuffix(all: seq<Assignment>, l0: seq<Assignment>, n: nat, m: nat)
    requires IsSuffix(l0, BareAll(all)) && n <= m <= |l0|
    ensures |l0| <= |all| && BareAll(all[|all| - |l0| + n..|all| - |l0| + m]) == l0[n..m]
  {
    var k := |all| - |l0|;
    BareAllSlice(all, k + n, k + m);
    DropThenSlice(BareAll(all), k, n, m);
  }

  /** A page that resumes at position `n` of the original listing `l0` shows that listing from there on. */
  lemma PageResumes(all: seq<Assignment>, l0: seq<Assignment>, n: nat, limit: Option<int>, cursor: Option<Id>)
    requires UniqueIds(all) && IsSuffix(l0, BareAll(all))
    requires if cursor.None? then n == 0 && |all| == |l0| else n < |l0| && cursor.value == l0[n].id
    ensures var page, end := PageOf(all, limit, cursor), n + Clamp(limit);
      if end < |l0| then BareAll(page.items) == l0[n..end] && page.cursor == Some(l0[end].id)
      else BareAll(page.items) == l0[n..] && page.cursor == None
  {
    PageStarts(all, l0, n, cursor);
    var end := n + Clamp(limit);
    if end < |l0| {
      SliceOfSuffix(all, l0, n, end);
    } else {
      SliceOfSuffix(all, l0, n, |l0|);
      assert all[|all| - |l0| + n..|all|] == all[|all| - |l0| + n..];
    }
  }

  // A whole walk.

  function Flatten(pages: seq<Page>): seq<Assignment> {
    if pages == [] then [] else Flatten(pages[..|pages| - 1]) + BareAll(pages[|pages| - 1].items)
  }

  /** The store seen by page `i`, when `between[j]` is what writers did between page j and page j + 1. */
  function StoreAt(s: Store, between: seq<seq<Write>>, i: nat): Store
    requires i <= |between|
  {
    if i == 0 then s else AllWritten(StoreAt(s, between, i - 1), between[i - 1])
  }

  function CursorInto(pages: seq<Page>, i: nat): Option<Id>
    requires i <= |pages|
  {
    if i == 0 then None else pages[i - 1].cursor
  }

  ghost predicate Served(s: Store, uuid: Id, between: seq<seq<Write>>, limits: seq<Option<int>>,
      pages: seq<Page>, i: nat)
    requires i < |pages| == |limits| == |between| + 1
  {
    GetTierHistory(StoreAt(s, between, i), uuid, limits[i], CursorInto(pages, i)) == Some(pages[i])
  }

  /** A client follows cursors: each page is asked for with the cursor of the page before. */
  ghost predicate IsWalk(s: Store, uuid: Id, between: seq<seq<Write>>, limits: seq<Option<int>>, pages: seq<Page>) {
    && |pages| > 0 && |limits| == |pages| && |between| == |pages| - 1
    && (forall i :: 0 <= i < |pages| - 1 ==> pages[i].cursor.Some?)
    && (forall i :: 0 <= i < |pages| ==> Served(s, uuid, between, limits, pages, i))
    && (forall i {:trigger between[i]} :: 0 <= i < |between| ==> AllLater(StoreAt(s, between, i), uuid, between[i]))
  }

  lemma {:induction false} ListingGrowsInFront(s: Store, uuid: Id, between: seq<seq<Write>>, i: nat)
    requires i <= |between|
    requires forall j {:trigger between[j]} :: 0 <= j < |between| ==> AllLater(StoreAt(s, between, j), uuid, between[j])
    ensures IsSuffix(Listing(s, uuid), Listing(StoreAt(s, between, i), uuid))
  {
    if i > 0 {
      ListingGrowsInFront(s, uuid, between, i - 1);
      var mid := StoreAt(s, between, i - 1);
      WritesExtendListing(mid, uuid, between[i - 1]);
      SuffixTransitive(Listing(s, uuid), Listing(mid, uuid), Listing(StoreAt(s, between, i), uuid));
    }
  }

  lemma {:induction false} WritesKeepIdsUnique(s: Store, ws: seq<Write>)
    requires UniqueIds(s.history)
    ensures UniqueIds(AllWritten(s, ws).history)
    decreases |ws|
  {
    if ws != [] {
      TierWritesKeepIdsUnique(s, ws[0].account, ws[0].tier, ws[0].reason, ws[0].assignmentId, ws[0].now);
      WritesKeepIdsUnique(Written(s, ws[0]), ws[1..]);
    }
  }

  lemma {:induction false} IdsStayUnique(s: Store, between: seq<seq<Write>>, i: nat)
    requires UniqueIds(s.history) && i <= |between|
    ensures UniqueIds(StoreAt(s, between, i).history)
  {
    if i > 0 {
      IdsStayUnique(s, between, i - 1);
      WritesKeepIdsUnique(StoreAt(s, between, i - 1), between[i - 1]);
    }
  }

  /** Page `i` is cut from a listing with distinct ids that ends with the original one. */
  lemma PageSource(s: Store, uuid: Id, between: seq<seq<Write>>, limits: seq<Option<int>>, pages: seq<Page>, i: nat)
      returns (all: seq<Assignment>)
    requires UniqueIds(s.history) && IsWalk(s, uuid, between, limits, pages) && i < |pages|
    ensures UniqueIds(all) && IsSuffix(Listing(s, uuid), BareAll(all)) && (i == 0 ==> |all| == |Listing(s, uuid)|)
    ensures pages[i] == PageOf(all, limits[i], CursorInto(pages, i))
  {
    var store := StoreAt(s, between, i);
    all := NewestFirst(Of(store.history, uuid));
    ListingGrowsInFront(s, uuid, between, i);
    IdsStayUnique(s, between, i);
    OfKeepsIdsUnique(store.history, uuid);
    SortingKeepsIdsUnique(Of(store.history, uuid));
    assert Served(s, uuid, between, limits, pages, i);
  }

  /**
   * After `m` pages the client has seen exactly the first `n` entries of the original listing and
   * holds the cursor of entry `n`.
   */
  ghost predicate Progress(l0: seq<Assignment>, pages: seq<Page>, m: nat, n: nat)
    requires 1 <= m <= |pages|
  {
    && n <= |l0| && Flatten(pages[..m]) == l0[..n]
    && (m <= n || (m == 1 && l0 == []))
    && if pages[m - 1].cursor.Some? then n < |l0| && pages[m - 1].cursor.value == l0[n].id else n == |l0|
  }

  /** The next page continues where the client is. */
  lemma NextPage(s: Store, uuid: Id, between: seq<seq<Write>>, limits: seq<Option<int>>,
      pages: seq<Page>, m: nat, n: nat)
    requires UniqueIds(s.history) && IsWalk(s, uuid, between, limits, pages) && 1 <= m <= |pages|
    requires if m == 1 then n == 0
        else pages[m - 2].cursor.Some? && n < |Listing(s, uuid)| && pages[m - 2].cursor.value == Listing(s, uuid)[n].id
    ensures var l0, end, page := Listing(s, uuid), n + Clamp(limits[m - 1]), pages[m - 1];
      if end < |l0| then BareAll(page.items) == l0[n..end] && page.cursor == Some(l0[end].id)
      else BareAll(page.items) == l0[n..] && page.cursor == None
  {
    var all := PageSource(s, uuid, between, limits, pages, m - 1);
    var cursor := CursorInto(pages, m - 1);
    assert cursor == if m == 1 then None else pages[m - 2].cursor;
    PageResumes(all, Listing(s, uuid), n, limits[m - 1], cursor);
  }

  lemma {:induction false} WalkProgress(s: Store, uuid: Id, between: seq<seq<Write>>, limits: seq<Option<int>>,
      pages: seq<Page>, m: nat) returns (n: nat)
    requires UniqueIds(s.history) && IsWalk(s, uuid, between, limits, pages) && 1 <= m <= |pages|
    ensures Progress(Listing(s, uuid), pages, m, n)
  {
    var l0 := Listing(s, uuid);
    var before := 0;
    if m > 1 {
      before := WalkProgress(s, uuid, between, limits, pages, m - 1);
      assert pages[m - 2].cursor.Some?;
    }
    NextPage(s, uuid, between, limits, pages, m, before);
    n := ProgressStep(l0, pages, m, before, Clamp(limits[m - 1]));
  }

  lemma ProgressStep(l0: seq<Assignment>, pages: seq<Page>, m: nat, before: nat, size: nat) returns (n: nat)
    requires 1 <= m <= |pages| && size > 0
    requires if m == 1 then before == 0 else Progress(l0, pages, m - 1, before) && before < |l0|
    requires if before + size < |l0| then
      BareAll(pages[m - 1].items) == l0[before..before + size] && pages[m - 1].cursor == Some(l0[before + size].id)
      else BareAll(pages[m - 1].items) == l0[before..] && pages[m - 1].cursor == None
    ensures Progress(l0, pages, m, n)
  {
    n := if before + size < |l0| then before + size else |l0|;
    assert pages[..m][..m - 1] == pages[..m - 1];
    assert l0[..n] == l0[..before] + l0[before..n];
  }

  /**
   * Following cursors until there is none returns exactly the assignments present at the
   * first page, each once and newest first, whatever the limits and whatever later tier
   * changes happen between pages; and the walk has at most as many pages as assignments.
   */
  lemma WalkIsExact(s: Store, uuid: Id, between: seq<seq<Write>>, limits: seq<Option<int>>, pages: seq<Page>)
    requires UniqueIds(s.history) && IsWalk(s, uuid, between, limits, pages)
    ensures pages[|pages| - 1].cursor.None? ==> Flatten(pages) == Listing(s, uuid)
    ensures |pages| <= |Listing(s, uuid)| || |pages| == 1
    ensures |pages| == |Listing(s, uuid)| ==> pages[|pages| - 1].cursor.None?
  {
    var n := WalkProgress(s, uuid, between, limits, pages, |pages|);
    var l0 := Listing(s, uuid);
    assert pages[..|pages|] == pages;
    assert l0[..|l0|] == l0;
  }
}
