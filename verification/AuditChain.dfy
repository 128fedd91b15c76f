/**
 * The hash-chained audit log (src/services/auditLogger.ts).
 *
 * The digest is a function `h`; the theorems say what they need of it. The JSON text of
 * the detail object is a string, never empty.
 */
module AuditChain {
  import opened Domain

  /** A stored entry. `actor`, `resource` and `outcome` stand for the columns that the hash does not cover. */
  datatype Entry = Entry(
    id: string, appId: string, action: string, detail: Option<string>,
    actor: string, resource: string, outcome: string,
    previousHash: Option<string>, entryHash: string, createdAt: Time)

  const BAR: char := '|'

  predicate NoBar(s: string) {
    BAR !in s
  }

  function OrEmpty(o: Option<string>): string {
    if o.Some? then o.value else ""
  }

  /** `[id, appId, action, detailString, previousHash ?? ''].join('|')`. */
  function HashInput(id: string, appId: string, action: string, detail: Option<string>,
      previous: Option<string>): string {
    id + [BAR] + appId + [BAR] + action + [BAR] + OrEmpty(detail) + [BAR] + OrEmpty(previous)
  }

  /** Of the joined parts only the detail text may hold the separator; neither it nor a hash is empty when present. */
  predicate PlainParts(id: string, appId: string, action: string, detail: Option<string>, previous: Option<string>) {
    && NoBar(id) && NoBar(appId) && NoBar(action) && NoBar(OrEmpty(previous))
    && (detail.Some? ==> detail.value != "") && (previous.Some? ==> previous.value != "")
  }

  // The join decodes uniquely.

  function BeforeFirst(s: string): string {
    if s == [] || s[0] == BAR then [] else [s[0]] + BeforeFirst(s[1..])
  }

  function AfterFirst(s: string): string {
    if s == [] then [] else if s[0] == BAR then s[1..] else AfterFirst(s[1..])
  }

  function AfterLast(s: string): string {
    if s == [] || s[|s| - 1] == BAR then [] else AfterLast(s[..|s| - 1]) + [s[|s| - 1]]
  }

  function BeforeLast(s: string): string {
    if s == [] then [] else if s[|s| - 1] == BAR then s[..|s| - 1] else BeforeLast(s[..|s| - 1])
  }

  lemma {:induction false} SplitsAtFirst(a: string, x: string)
    requires NoBar(a)
    ensures BeforeFirst(a + [BAR] + x) == a && AfterFirst(a + [BAR] + x) == x
  {
    var s := a + [BAR] + x;
    if a == [] {
      assert s[1..] == x;
    } else {
      assert a[0] in a;
      assert s[1..] == a[1..] + [BAR] + x;
      SplitsAtFirst(a[1..], x);
    }
  }

  lemma {:induction false} SplitsAtLast(x: string, a: string)
    requires NoBar(a)
    ensures BeforeLast(x + [BAR] + a) == x && AfterLast(x + [BAR] + a) == a
  {
    var s := x + [BAR] + a;
    if a == [] {
      assert s[..|s| - 1] == x;
    } else {
      assert a[|a| - 1] in a;
      assert s[..|s| - 1] == x + [BAR] + a[..|a| - 1];
      SplitsAtLast(x, a[..|a| - 1]);
      assert a == a[..|a| - 1] + [a[|a| - 1]];
    }
  }

  function NonEmpty(s: string): Option<string> {
    if s == "" then None else Some(s)
  }

  datatype Parts = Parts(id: string, appId: string, action: string, detail: Option<string>, previous: Option<string>)

  function Decode(s: string): Parts {
    var rest := AfterFirst(AfterFirst(AfterFirst(s)));
    Parts(BeforeFirst(s), BeforeFirst(AfterFirst(s)), BeforeFirst(AfterFirst(AfterFirst(s))),
        NonEmpty(BeforeLast(rest)), NonEmpty(AfterLast(rest)))
  }

  /** The detail may contain any number of separators: the first three and the last one still fix all five parts. */
  lemma HashInputDecodes(id: string, appId: string, action: string, detail: Option<string>, previous: Option<string>)
    requires PlainParts(id, appId, action, detail, previous)
    ensures Decode(HashInput(id, appId, action, detail, previous)) == Parts(id, appId, action, detail, previous)
  {
    var d := OrEmpty(detail) + [BAR] + OrEmpty(previous);
    var c := action + [BAR] + d;
    var b := appId + [BAR] + c;
    JoinIsNested(id, appId, action, OrEmpty(detail), OrEmpty(previous));
    SplitsAtFirst(id, b);
    SplitsAtFirst(appId, c);
    SplitsAtFirst(action, d);
    SplitsAtLast(OrEmpty(detail), OrEmpty(previous));
  }

  lemma JoinIsNested(a: string, b: string, c: string, d: string, e: string)
    ensures a + [BAR] + b + [BAR] + c + [BAR] + d + [BAR] + e == a + [BAR] + (b + [BAR] + (c + [BAR] + (d + [BAR] + e)))
  {
    var cde := c + [BAR] + (d + [BAR] + e);
    assert c + [BAR] + d + [BAR] + e == cde;
    assert b + [BAR] + c + [BAR] + d + [BAR] + e == b + [BAR] + cde;
  }

  /** Why the plain parts must hold no separator: two different entries with one hash input. */
  lemma SeparatorInAnAppIdIsAmbiguous()
    ensures HashInput("i", "a|b", "c", None, None) == HashInput("i", "a", "b|c", None, None)
  {
    assert HashInput("i", "a|b", "c", None, None) == "i|a|b|c||" == HashInput("i", "a", "b|c", None, None);
  }

  // Tamper evidence.

  function InputOf(e: Entry): string {
    HashInput(e.id, e.appId, e.action, e.detail, e.previousHash)
  }

  predicate WellFormed(e: Entry) {
    PlainParts(e.id, e.appId, e.action, e.detail, e.previousHash)
  }

  predicate ValidAt(h: string -> string, log: seq<Entry>, i: nat)
    requires i < |log|
  {
    && WellFormed(log[i])
    && log[i].entryHash == h(InputOf(log[i]))
    && log[i].previousHash == if i == 0 then None else Some(log[i - 1].entryHash)
  }

  /**
   * What an auditor checks: every hash recomputes, the first entry has no previous hash, and each
   * later one names the entry before it.
   */
  predicate LinkValid(h: string -> string, log: seq<Entry>) {
    forall i :: 0 <= i < |log| ==> ValidAt(h, log, i)
  }

  /** No entry of one log collides with a different entry of the other under `h`. */
  predicate NoCollision(h: string -> string, log1: seq<Entry>, log2: seq<Entry>) {
    forall e1, e2 :: e1 in log1 && e2 in log2 && h(InputOf(e1)) == h(InputOf(e2)) ==> InputOf(e1) == InputOf(e2)
  }

  predicate SameCovered(a: Entry, b: Entry) {
    a.id == b.id && a.appId == b.appId && a.action == b.action && a.detail == b.detail &&
        a.previousHash == b.previousHash
  }

  lemma PrefixIsValid(h: string -> string, log: seq<Entry>, n: nat)
    requires LinkValid(h, log) && n <= |log|
    ensures LinkValid(h, log[..n])
  {
    forall i | 0 <= i < n ensures ValidAt(h, log[..n], i) {
      assert ValidAt(h, log, i);
    }
  }

  /**
   * Tamper evidence: two valid logs that end in the same hash have the same length and
   * the same id, app id, action and detail at every position, unless they exhibit a
   * collision of the digest.
   */
  lemma {:induction false} LastHashFixesTheLog(h: string -> string, log1: seq<Entry>, log2: seq<Entry>)
    requires LinkValid(h, log1) && LinkValid(h, log2) && NoCollision(h, log1, log2)
    requires log1 != [] && log2 != [] && log1[|log1| - 1].entryHash == log2[|log2| - 1].entryHash
    ensures |log1| == |log2| && forall i :: 0 <= i < |log1| ==> SameCovered(log1[i], log2[i])
  {
    var m, n := |log1| - 1, |log2| - 1;
    var a, b := log1[m], log2[n];
    assert ValidAt(h, log1, m) && ValidAt(h, log2, n);
    assert a in log1 && b in log2;
    HashInputDecodes(a.id, a.appId, a.action, a.detail, a.previousHash);
    HashInputDecodes(b.id, b.appId, b.action, b.detail, b.previousHash);
    assert SameCovered(a, b);
    if m > 0 {
      PrefixIsValid(h, log1, m);
      PrefixIsValid(h, log2, n);
      LastHashFixesTheLog(h, log1[..m], log2[..n]);
      assert forall i :: 0 <= i < m ==> log1[..m][i] == log1[i] && log2[..n][i] == log2[i];
    }
  }

  /** And no more than that: actor, resource, outcome and timestamp can be rewritten without any hash noticing. */
  lemma UncoveredColumnsAreUnprotected(h: string -> string, log: seq<Entry>, k: nat, actor: string, resource: string,
      outcome: string, at: Time)
    requires LinkValid(h, log) && k < |log|
    ensures LinkValid(h, log[k := log[k].(actor := actor, resource := resource, outcome := outcome, createdAt := at)])
  {
    var log' := log[k := log[k].(actor := actor, resource := resource, outcome := outcome, createdAt := at)];
    forall i | 0 <= i < |log'| ensures ValidAt(h, log', i) {
      assert ValidAt(h, log, i);
    }
  }

  // Concurrent appenders. The advisory lock serialises the appends; rows are in lock order.

  datatype Fields = Fields(id: string, appId: string, action: string, detail: Option<string>, actor: string,
      resource: string, outcome: string)

  function NewEntry(h: string -> string, f: Fields, previous: Option<string>, createdAt: Time): Entry {
    Entry(f.id, f.appId, f.action, f.detail, f.actor, f.resource, f.outcome, previous,
          h(HashInput(f.id, f.appId, f.action, f.detail, previous)), createdAt)
  }

  /** `ORDER BY created_at DESC LIMIT 1`: any row with the largest timestamp. */
  predicate IsNewest(log: seq<Entry>, k: int) {
    0 <= k < |log| && forall j :: 0 <= j < |log| ==> log[j].createdAt <= log[k].createdAt
  }

  /**
   * One locked append. The timestamp is the database's `now()`, fixed when the transaction
   * began, that is, possibly before it waited for the lock: it can be any instant.
   */
  ghost predicate Appends(h: string -> string, log: seq<Entry>, log': seq<Entry>, f: Fields, createdAt: Time, k: int) {
    && (log == [] || IsNewest(log, k))
    && log' == log + [NewEntry(h, f, if log == [] then None else Some(log[k].entryHash), createdAt)]
  }

  /** A log made by appends alone: `parent[i]` is the row the i-th append linked to. */
  ghost predicate Appended(h: string -> string, log: seq<Entry>, parent: seq<int>) {
    && |parent| == |log|
    && forall i :: 0 <= i < |log| ==> LinkedAt(h, log, parent, i)
  }

  ghost predicate LinkedAt(h: string -> string, log: seq<Entry>, parent: seq<int>, i: nat)
    requires i < |log| == |parent|
  {
    && (i > 0 ==> IsNewest(log[..i], parent[i]))
    && log[i].previousHash == (if i == 0 then None else Some(log[parent[i]].entryHash))
    && log[i].entryHash == h(InputOf(log[i]))
  }

  lemma AppendKeepsAppended(h: string -> string, log: seq<Entry>, log': seq<Entry>, parent: seq<int>, f: Fields,
      createdAt: Time, k: int)
    requires Appended(h, log, parent) && Appends(h, log, log', f, createdAt, k)
    ensures Appended(h, log', parent + [k])
  {
    var parent' := parent + [k];
    forall i | 0 <= i < |log'| ensures LinkedAt(h, log', parent', i) {
      assert log'[..i] == if i < |log| then log[..i] else log;
      if i < |log| {
        assert LinkedAt(h, log, parent, i);
        assert i > 0 ==> 0 <= parent[i] < i;
      }
    }
  }

  ghost predicate Step(h: string -> string, log: seq<Entry>, log': seq<Entry>) {
    exists f, createdAt, k :: Appends(h, log, log', f, createdAt, k)
  }

  predicate Names(e: Entry, earlier: Entry) {
    e.previousHash == Some(earlier.entryHash)
  }

  predicate NamesEarlier(log: seq<Entry>, i: nat)
    requires i < |log|
  {
    exists j :: 0 <= j < i && Names(log[i], log[j])
  }

  /** The successive contents of the table, whoever appended. */
  ghost predicate IsRun(h: string -> string, logs: seq<seq<Entry>>) {
    && logs != [] && logs[0] == []
    && forall i, j :: 0 <= i && j == i + 1 < |logs| ==> Step(h, logs[i], logs[j])
  }

  lemma {:induction false} RunsAreAppended(h: string -> string, logs: seq<seq<Entry>>, n: nat)
      returns (parent: seq<int>)
    requires IsRun(h, logs) && n < |logs|
    ensures Appended(h, logs[n], parent)
  {
    if n == 0 {
      parent := [];
    } else {
      var before := RunsAreAppended(h, logs, n - 1);
      assert Step(h, logs[n - 1], logs[n]);
      var f, createdAt, k :| Appends(h, logs[n - 1], logs[n], f, createdAt, k);
      AppendKeepsAppended(h, logs[n - 1], logs[n], before, f, createdAt, k);
      parent := before + [k];
    }
  }

  /**
   * In every run of concurrent appenders, whatever timestamps the database gives them, the
   * log has exactly one root and every other entry names the hash of an earlier one.
   */
  lemma EveryRunHasOneRoot(h: string -> string, logs: seq<seq<Entry>>, n: nat)
    requires IsRun(h, logs) && n < |logs|
    ensures var log := logs[n];
      && (forall i :: 0 <= i < |log| ==> (log[i].previousHash.None? <==> i == 0))
      && (forall i :: 0 < i < |log| ==> NamesEarlier(log, i))
  {
    var parent := RunsAreAppended(h, logs, n);
    OneRoot(h, logs[n], parent);
    var log := logs[n];
    forall i | 0 < i < |log| ensures NamesEarlier(log, i) {
      assert Names(log[i], log[parent[i]]);
    }
  }

  /** In an appended log there is one root, and every other entry names an earlier one. */
  lemma OneRoot(h: string -> string, log: seq<Entry>, parent: seq<int>)
    requires Appended(h, log, parent)
    ensures forall i :: 0 <= i < |log| ==> (log[i].previousHash.None? <==> i == 0)
    ensures forall i :: 0 < i < |log| ==> 0 <= parent[i] < i && log[i].previousHash == Some(log[parent[i]].entryHash)
  {
    forall i | 0 <= i < |log|
      ensures (log[i].previousHash.None? <==> i == 0) &&
          (i > 0 ==> 0 <= parent[i] < i && log[i].previousHash == Some(log[parent[i]].entryHash))
    {
      assert LinkedAt(h, log, parent, i);
    }
  }

  /** No two entries of the log have one hash. */
  ghost predicate DistinctHashes(log: seq<Entry>) {
    forall i, j :: 0 <= i < j < |log| ==> log[i].entryHash != log[j].entryHash
  }

  /** Entries have distinct ids, so two equal hashes in one log would be a collision of the digest. */
  lemma NoCollisionKeepsHashesDistinct(h: string -> string, log: seq<Entry>, parent: seq<int>)
    requires Appended(h, log, parent) && NoCollision(h, log, log)
    requires forall i :: 0 <= i < |log| ==> WellFormed(log[i])
    requires forall i, j :: 0 <= i < j < |log| ==> log[i].id != log[j].id
    ensures DistinctHashes(log)
  {
    forall i, j | 0 <= i < j < |log| ensures log[i].entryHash != log[j].entryHash {
      var a, b := log[i], log[j];
      assert LinkedAt(h, log, parent, i) && LinkedAt(h, log, parent, j);
      HashInputDecodes(a.id, a.appId, a.action, a.detail, a.previousHash);
      HashInputDecodes(b.id, b.appId, b.action, b.detail, b.previousHash);
      assert a in log && b in log;
    }
  }

  /** A walk along the links as they are stored: each entry's previous hash is the hash of the next entry visited. */
  predicate IsWalk(log: seq<Entry>, p: seq<nat>) {
    && p != [] && (forall a :: 0 <= a < |p| ==> p[a] < |log|)
    && (forall a, b :: 0 <= a && b == a + 1 < |p| ==> Names(log[p[a]], log[p[b]]))
  }

  /** Whatever entry a previous hash names, it is the one the append linked to. */
  lemma NamedIsParent(h: string -> string, log: seq<Entry>, parent: seq<int>, i: nat, j: nat)
    requires Appended(h, log, parent) && DistinctHashes(log) && i < |log| && j < |log| && Names(log[i], log[j])
    ensures i > 0 && j == parent[i] < i
  {
    OneRoot(h, log, parent);
    assert LinkedAt(h, log, parent, i);
  }

  lemma {:induction false} WalksDescend(h: string -> string, log: seq<Entry>, parent: seq<int>, p: seq<nat>)
    requires Appended(h, log, parent) && DistinctHashes(log) && IsWalk(log, p)
    ensures |p| + p[|p| - 1] <= p[0] + 1
    ensures forall a :: 0 <= a < |p| - 1 ==> p[|p| - 1] < p[a]
  {
    if |p| > 1 {
      var n := |p| - 1;
      var q := p[..n];
      assert forall a, b :: 0 <= a && b == a + 1 < |q| ==> Names(log[q[a]], log[q[b]]) && q[a] == p[a] && q[b] == p[b];
      WalksDescend(h, log, parent, q);
      NamedIsParent(h, log, parent, p[n - 1], p[n]);
    }
  }

  lemma WalksNeverReturn(h: string -> string, log: seq<Entry>, parent: seq<int>, p: seq<nat>, a: nat, b: nat)
    requires Appended(h, log, parent) && DistinctHashes(log) && IsWalk(log, p) && a < b < |p|
    ensures p[b] < p[a]
  {
    var q := p[..b + 1];
    assert forall x, y :: 0 <= x && y == x + 1 < |q| ==> Names(log[q[x]], log[q[y]]) && q[x] == p[x] && q[y] == p[y];
    WalksDescend(h, log, parent, q);
    assert q[a] == p[a] && q[|q| - 1] == p[b];
  }

  lemma WalksGoOn(h: string -> string, log: seq<Entry>, parent: seq<int>, p: seq<nat>) returns (next: nat)
    requires Appended(h, log, parent) && IsWalk(log, p) && p[|p| - 1] != 0
    ensures IsWalk(log, p + [next])
  {
    var last := p[|p| - 1];
    OneRoot(h, log, parent);
    next := parent[last];
    assert Names(log[last], log[next]);
  }

  /**
   * In every run of concurrent appenders whose entries have distinct hashes: following
   * previous hashes from any entry meets no entry twice, can always go on until it is at
   * the first entry, which has no previous hash, and has then taken no more steps than
   * there are entries before the one it started from.
   */
  lemma {:induction false} LinksReachTheRoot(h: string -> string, logs: seq<seq<Entry>>, n: nat, p: seq<nat>)
    requires IsRun(h, logs) && n < |logs| && DistinctHashes(logs[n]) && IsWalk(logs[n], p)
    ensures forall a, b :: 0 <= a < b < |p| ==> p[b] < p[a]
    ensures |p| <= p[0] + 1
    ensures logs[n][p[|p| - 1]].previousHash.None? <==> p[|p| - 1] == 0
    ensures p[|p| - 1] != 0 ==> exists next: nat :: IsWalk(logs[n], p + [next])
  {
    var parent := RunsAreAppended(h, logs, n);
    OneRoot(h, logs[n], parent);
    WalksDescend(h, logs[n], parent, p);
    forall a, b | 0 <= a < b < |p| ensures p[b] < p[a] {
      WalksNeverReturn(h, logs[n], parent, p, a, b);
    }
    if p[|p| - 1] != 0 {
      var next := WalksGoOn(h, logs[n], parent, p);
    }
  }

  ghost predicate Linear(parent: seq<int>) {
    forall i :: 0 < i < |parent| ==> parent[i] == i - 1
  }

  ghost predicate Increasing(log: seq<Entry>) {
    forall i, j :: 0 <= i < j < |log| ==> log[i].createdAt < log[j].createdAt
  }

  /**
   * When the chain is a line, given that no two entries share a timestamp: exactly when
   * the timestamps of all entries but the last follow the order in which the lock was held.
   */
  lemma LinearExactlyWhenTimestampsFollowTheLock(h: string -> string, log: seq<Entry>, parent: seq<int>)
    requires Appended(h, log, parent) && log != []
    requires forall i, j :: 0 <= i < j < |log| ==> log[i].createdAt != log[j].createdAt
    ensures Linear(parent) <==> Increasing(log[..|log| - 1])
  {
    var body := log[..|log| - 1];
    if Linear(parent) {
      forall i, j | 0 <= i < j < |body| ensures body[i].createdAt < body[j].createdAt {
        assert LinkedAt(h, log, parent, j + 1);
        assert log[..j + 1][i].createdAt <= log[..j + 1][j].createdAt;
      }
    }
    if Increasing(body) {
      forall i | 0 < i < |parent| ensures parent[i] == i - 1 {
        assert LinkedAt(h, log, parent, i);
        assert log[..i][i - 1].createdAt <= log[..i][parent[i]].createdAt;
        assert forall j :: 0 <= j < i - 1 ==> body[j].createdAt < body[i - 1].createdAt;
      }
    }
  }

  /** In lock order the log is one chain that an auditor accepts. */
  lemma OrderedTimestampsGiveAValidChain(h: string -> string, log: seq<Entry>, parent: seq<int>)
    requires Appended(h, log, parent) && Increasing(log)
    requires forall i :: 0 <= i < |log| ==> WellFormed(log[i])
    ensures LinkValid(h, log)
  {
    if log != [] {
      assert Increasing(log[..|log| - 1]);
      LinearExactlyWhenTimestampsFollowTheLock(h, log, parent);
      forall i | 0 <= i < |log| ensures ValidAt(h, log, i) {
        assert LinkedAt(h, log, parent, i);
      }
    }
  }

  /** A transaction that began early and got the lock late forks the chain: two entries name the same previous hash. */
  lemma LateLockForks(h: string -> string, f0: Fields, f1: Fields, f2: Fields)
    ensures exists log: seq<Entry>, parent ::
        Appended(h, log, parent) && |log| == 3 && log[1].previousHash == log[2].previousHash == Some(log[0].entryHash)
  {
    var e0 := NewEntry(h, f0, None, 5);
    var e1 := NewEntry(h, f1, Some(e0.entryHash), 3);
    var e2 := NewEntry(h, f2, Some(e0.entryHash), 6);
    var log := [e0, e1, e2];
    assert [e0] == [] + [e0] && [e0, e1] == [e0] + [e1] && log == [e0, e1] + [e2];
    assert Appended(h, [], []);
    AppendKeepsAppended(h, [], [e0], [], f0, 5, 0);
    AppendKeepsAppended(h, [e0], [e0, e1], [] + [0], f1, 3, 0);
    AppendKeepsAppended(h, [e0, e1], log, [] + [0] + [0], f2, 6, 0);
  }

  class DbAuditLogger {
    const h: string -> string
    var rows: seq<Entry>
    ghost var parent: seq<int>

    constructor (h: string -> string)
      ensures this.h == h && rows == [] && parent == []
    {
      this.h := h;
      rows := [];
      parent := [];
    }

    method Append(f: Fields, createdAt: Time)
      requires Appended(h, rows, parent)
      modifies this
      ensures |parent| > 0 && parent == old(parent) + [parent[|parent| - 1]]
      ensures Appends(h, old(rows), rows, f, createdAt, parent[|parent| - 1])
      ensures Appended(h, rows, parent)
    {
      var previous: Option<string> := None;
      ghost var k := 0;
      if |rows| > 0 {
        var newest := 0;
        for i := 1 to |rows|
          invariant 0 <= newest < i
          invariant forall j :: 0 <= j < i ==> rows[j].createdAt <= rows[newest].createdAt
        {
          if rows[i].createdAt > rows[newest].createdAt { newest := i; }
        }
        k := newest;
        previous := Some(rows[newest].entryHash);
      }
      ghost var before := rows;
      rows := rows + [NewEntry(h, f, previous, createdAt)];
      AppendKeepsAppended(h, before, rows, parent, f, createdAt, k);
      parent := parent + [k];
    }
  }
}
