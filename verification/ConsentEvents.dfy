/**
 * Grant and revoke handlers running concurrently (src/routes/consent.ts): each changes
 * its row first and publishes its event later, so the topic lags behind the table and
 * may order events differently from the rows.
 */
module ConsentEvents {
  import opened Domain
  import opened ConsentGrants

  type Pid = nat

  datatype ConsentEvent = ConsentGranted(id: Id) | ConsentRevoked(id: Id)

  /** `pending`: the event each handler in flight still has to publish. */
  datatype State = State(table: Table, pending: map<Pid, ConsentEvent>, topic: seq<ConsentEvent>)

  const INIT := State(Table([], map[]), map[], [])

  datatype Action =
    | GrantRow(pid: Pid, id: Id, account: Id, app: Id, scope: string, via: Id, now: Time)
    | RevokeRow(pid: Pid, id: Id, byApp: Id, reason: string, at: Time)
    | Publish(pid: Pid)

  /** A handler whose row change did not happen answers an error and publishes nothing. */
  function Apply(s: State, a: Action): State {
    match a
    case GrantRow(pid, id, account, app, scope, via, now) =>
      if pid !in s.pending && OutcomeOfCreate(s.table, id, account, app, scope).Created? then
        s.(table := WithGrant(s.table, id, account, app, scope, via, now),
            pending := s.pending[pid := ConsentGranted(id)])
      else s
    case RevokeRow(pid, id, byApp, reason, at) =>
      if pid !in s.pending && OutcomeOfRevoke(s.table, id).Revoked? then
        s.(table := WithRevoked(s.table, id, byApp, reason, at), pending := s.pending[pid := ConsentRevoked(id)])
      else s
    case Publish(pid) =>
      if pid in s.pending then s.(topic := s.topic + [s.pending[pid]], pending := s.pending - {pid}) else s
  }

  function Run(actions: seq<Action>): State {
    if actions == [] then INIT else Apply(Run(actions[..|actions| - 1]), actions[|actions| - 1])
  }

  /** The row change an event reports has happened. */
  predicate Happened(t: Table, e: ConsentEvent) {
    e.id in t.rows && (e.ConsentRevoked? ==> t.rows[e.id].revokedAt.Some?)
  }

  ghost predicate Inv(s: State) {
    && WellFormed(s.table) && OneOpenEach(s.table)
    && (forall e :: Happened(s.table, e) ==> e in s.topic || e in s.pending.Values)
    && (forall e :: e in s.topic || e in s.pending.Values ==> Happened(s.table, e))
    && (forall e :: e in s.topic ==> e !in s.pending.Values)
    && (forall p, q :: p in s.pending && q in s.pending && s.pending[p] == s.pending[q] ==> p == q)
    && (forall i, j :: 0 <= i < j < |s.topic| ==> s.topic[i] != s.topic[j])
  }

  /** A handler changes its row: exactly one new event has happened, and it is the handler's to publish. */
  lemma RowChangeKeepsInv(s: State, table': Table, pid: Pid, e: ConsentEvent)
    requires Inv(s) && pid !in s.pending
    requires WellFormed(table') && OneOpenEach(table')
    requires !Happened(s.table, e) && forall x :: Happened(table', x) <==> Happened(s.table, x) || x == e
    ensures Inv(s.(table := table', pending := s.pending[pid := e]))
  {
    var s' := s.(table := table', pending := s.pending[pid := e]);
    assert s'.pending.Values == s.pending.Values + {e} by {
      assert s'.pending[pid] == e;
      forall x | x in s.pending.Values ensures x in s'.pending.Values {
        var p :| p in s.pending && s.pending[p] == x;
        assert s'.pending[p] == x;
      }
    }
  }

  lemma PublishKeepsInv(s: State, pid: Pid)
    requires Inv(s) && pid in s.pending
    ensures Inv(Apply(s, Publish(pid)))
  {
    var s' := Apply(s, Publish(pid));
    var e := s.pending[pid];
    assert e in s.pending.Values;
    assert s'.pending.Values == s.pending.Values - {e} by {
      forall x | x in s.pending.Values && x != e ensures x in s'.pending.Values {
        var p :| p in s.pending && s.pending[p] == x;
        assert s'.pending[p] == x;
      }
    }
  }

  lemma ApplyKeepsInv(s: State, a: Action)
    requires Inv(s)
    ensures Inv(Apply(s, a))
  {
    match a
    case GrantRow(pid, id, account, app, scope, via, now) =>
      if pid !in s.pending && OutcomeOfCreate(s.table, id, account, app, scope).Created? {
        CreateKeepsOneOpen(s.table, id, account, app, scope, via, now);
        RowChangeKeepsInv(s, WithGrant(s.table, id, account, app, scope, via, now), pid, ConsentGranted(id));
      }
    case RevokeRow(pid, id, byApp, reason, at) =>
      if pid !in s.pending && OutcomeOfRevoke(s.table, id).Revoked? {
        RevokeKeepsOneOpen(s.table, id, byApp, reason, at);
        RowChangeKeepsInv(s, WithRevoked(s.table, id, byApp, reason, at), pid, ConsentRevoked(id));
      }
    case Publish(pid) =>
      if pid in s.pending { PublishKeepsInv(s, pid); }
  }

  lemma {:induction false} RunKeepsInv(actions: seq<Action>)
    ensures Inv(Run(actions))
  {
    if actions != [] {
      RunKeepsInv(actions[..|actions| - 1]);
      ApplyKeepsInv(Run(actions[..|actions| - 1]), actions[|actions| - 1]);
    }
  }

  /** What a consumer that only counts events believes: granted, and not revoked. */
  predicate Believed(topic: seq<ConsentEvent>, id: Id) {
    ConsentGranted(id) in topic && ConsentRevoked(id) !in topic
  }

  /**
   * In every state of every interleaving at most one grant is open per account, app and
   * scope; table and topic disagree about a grant only while a handler that still has to
   * publish an event of that very grant is in flight; and once none is, the granted ids
   * minus the revoked ids are exactly the open grants.
   */
  lemma TopicTracksTable(actions: seq<Action>, id: Id)
    ensures OneOpenEach(Run(actions).table)
    ensures var s := Run(actions);
      (IsOpen(s.table, id) <==> Believed(s.topic, id)) || ConsentGranted(id) in s.pending.Values ||
          ConsentRevoked(id) in s.pending.Values
    ensures Run(actions).pending == map[] ==> (IsOpen(Run(actions).table, id) <==> Believed(Run(actions).topic, id))
  {
    RunKeepsInv(actions);
    var s := Run(actions);
    assert Happened(s.table, ConsentGranted(id)) <==> id in s.table.rows;
    assert Happened(s.table, ConsentRevoked(id)) <==> id in s.table.rows && s.table.rows[id].revokedAt.Some?;
  }

  // A consumer that replays the topic in order.

  function Replay(topic: seq<ConsentEvent>): set<Id> {
    if topic == [] then {}
    else
      var before := Replay(topic[..|topic| - 1]);
      match topic[|topic| - 1]
      case ConsentGranted(id) => before + {id}
      case ConsentRevoked(id) => before - {id}
  }

  predicate RevokedBeforeGranted(topic: seq<ConsentEvent>, id: Id) {
    exists i, j :: 0 <= i < j < |topic| && topic[i] == ConsentRevoked(id) && topic[j] == ConsentGranted(id)
  }

  ghost predicate NoRepeats(topic: seq<ConsentEvent>) {
    forall i, j :: 0 <= i < j < |topic| ==> topic[i] != topic[j]
  }

  lemma BelievedNext(rest: seq<ConsentEvent>, last: ConsentEvent, id: Id)
    ensures Believed(rest + [last], id) <==>
      ConsentRevoked(id) !in rest && last != ConsentRevoked(id) &&
          (last == ConsentGranted(id) || ConsentGranted(id) in rest)
  {}

  lemma RevokedNext(rest: seq<ConsentEvent>, last: ConsentEvent, id: Id)
    ensures RevokedBeforeGranted(rest + [last], id) <==>
      RevokedBeforeGranted(rest, id) || (last == ConsentGranted(id) && ConsentRevoked(id) in rest)
  {
    var topic := rest + [last];
    if RevokedBeforeGranted(topic, id) {
      var i, j :| 0 <= i < j < |topic| && topic[i] == ConsentRevoked(id) && topic[j] == ConsentGranted(id);
      assert rest[i] == ConsentRevoked(id);
      if j < |rest| {
        assert rest[j] == ConsentGranted(id);
      }
    }
    if RevokedBeforeGranted(rest, id) {
      var i, j :| 0 <= i < j < |rest| && rest[i] == ConsentRevoked(id) && rest[j] == ConsentGranted(id);
      assert topic[i] == ConsentRevoked(id) && topic[j] == ConsentGranted(id);
    }
    if last == ConsentGranted(id) && ConsentRevoked(id) in rest {
      var i :| 0 <= i < |rest| && rest[i] == ConsentRevoked(id);
      assert topic[i] == ConsentRevoked(id) && topic[|rest|] == ConsentGranted(id);
    }
  }

  lemma NewIsNotOld(topic: seq<ConsentEvent>)
    requires NoRepeats(topic) && topic != []
    ensures NoRepeats(topic[..|topic| - 1]) && topic[|topic| - 1] !in topic[..|topic| - 1]
    ensures topic == topic[..|topic| - 1] + [topic[|topic| - 1]]
  {}

  lemma {:induction false} ReplayMeans(topic: seq<ConsentEvent>, id: Id)
    requires NoRepeats(topic)
    ensures id in Replay(topic) <==> Believed(topic, id) || RevokedBeforeGranted(topic, id)
  {
    if topic != [] {
      var rest, last := topic[..|topic| - 1], topic[|topic| - 1];
      NewIsNotOld(topic);
      ReplayMeans(rest, id);
      BelievedNext(rest, last, id);
      RevokedNext(rest, last, id);
    }
  }

  /**
   * Once every handler has finished, replaying the topic in order yields the open grants
   * exactly when no grant's revocation was published before its granting.
   */
  lemma OrderedReplayIsExact(actions: seq<Action>)
    requires Run(actions).pending == map[]
    ensures (forall id :: id in Replay(Run(actions).topic) <==> IsOpen(Run(actions).table, id)) <==>
      (forall id :: !RevokedBeforeGranted(Run(actions).topic, id))
  {
    RunKeepsInv(actions);
    var s := Run(actions);
    forall id ensures id in Replay(s.topic) <==> IsOpen(s.table, id) || RevokedBeforeGranted(s.topic, id) {
      ReplayMeans(s.topic, id);
      TopicTracksTable(actions, id);
    }
    forall id | RevokedBeforeGranted(s.topic, id) ensures !IsOpen(s.table, id) {
      TopicTracksTable(actions, id);
    }
  }

  lemma RunExtends(actions: seq<Action>, a: Action)
    ensures Run(actions + [a]) == Apply(Run(actions), a)
  {
    assert (actions + [a])[..|actions|] == actions;
  }

  /**
   * And that order does occur: a fast revoke overtakes a slow grant, and an in-order consumer keeps
   * a revoked grant.
   */
  lemma RevokeOvertakesGrant() returns (actions: seq<Action>)
    ensures Run(actions).pending == map[] && !IsOpen(Run(actions).table, 7) && 7 in Replay(Run(actions).topic)
  {
    var a1, a2 := GrantRow(0, 7, 1, 2, "profile:read", 3, 10), RevokeRow(1, 7, 3, "asked", 11);
    RunExtends([], a1);
    RunExtends([] + [a1], a2);
    RunExtends([] + [a1] + [a2], Publish(1));
    RunExtends([] + [a1] + [a2] + [Publish(1)], Publish(0));
    actions := [] + [a1] + [a2] + [Publish(1)] + [Publish(0)];
    var s1 := Apply(INIT, a1);
    assert s1.pending == map[0 := ConsentGranted(7)] && s1.topic == [];
    assert s1.table.rows == map[7 := NewGrant(7, 1, 2, "profile:read", 3, 10)];
    var s2 := Apply(s1, a2);
    assert s2.pending == map[0 := ConsentGranted(7), 1 := ConsentRevoked(7)] && s2.topic == [];
    var s4 := Apply(Apply(s2, Publish(1)), Publish(0));
    assert s4.pending == map[] && s4.topic == [ConsentRevoked(7), ConsentGranted(7)];
    assert Run(actions) == s4;
    assert s4.topic[..1] == [ConsentRevoked(7)];
  }
}
