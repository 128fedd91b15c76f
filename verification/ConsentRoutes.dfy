/** The grant and revoke handlers (src/routes/consent.ts) served alone: the row change, then its event. */
module ConsentRoutes {
  import opened Domain
  import opened ConsentGrants
  import opened ConsentEvents
  import Cust = Customers

  /** One handler from start to finish, with nothing in between. */
  function Served(table: Table, topic: seq<ConsentEvent>, change: Action): ConsentEvents.State {
    Apply(Apply(ConsentEvents.State(table, map[], topic), change), Publish(0))
  }

  function GrantReply(r: CreateOutcome): Reply {
    match r
    case Created => Ok(201)
    case AlreadyOpen(_) => Error(409, ConsentGrantAlreadyOpen)
    case DuplicateKey => Error(500, InternalUnspecified)
  }

  function RevokeReply(r: RevokeOutcome): Reply {
    match r
    case Revoked => Ok(200)
    case AlreadyRevoked => Error(409, ConsentGrantAlreadyRevoked)
    case NotFound => Error(404, ConsentGrantNotFound)
  }

  class ConsentRoutes {
    const customersRepo: Cust.CustomersRepo
    const consentGrantsRepo: ConsentGrantsRepo
    var topic: seq<ConsentEvent>

    constructor (customersRepo: Cust.CustomersRepo, consentGrantsRepo: ConsentGrantsRepo)
      ensures this.customersRepo == customersRepo && this.consentGrantsRepo == consentGrantsRepo && topic == []
    {
      this.customersRepo, this.consentGrantsRepo, topic := customersRepo, consentGrantsRepo, [];
    }

    method Grant(id: Id, account: Id, app: Id, scope: string, via: Id, now: Time) returns (reply: Reply)
      modifies this, consentGrantsRepo
      ensures account !in customersRepo.accounts ==>
        reply == Error(404, CustomerNotFound) && topic == old(topic) &&
            consentGrantsRepo.table == old(consentGrantsRepo.table)
      ensures account in customersRepo.accounts ==>
        var s := Served(old(consentGrantsRepo.table), old(topic), GrantRow(0, id, account, app, scope, via, now));
        && consentGrantsRepo.table == s.table && topic == s.topic && s.pending == map[]
        && reply == GrantReply(OutcomeOfCreate(old(consentGrantsRepo.table), id, account, app, scope))
    {
      var row := customersRepo.FindById(account);
      if row.None? { return Error(404, CustomerNotFound); }
      var outcome := consentGrantsRepo.Create(id, account, app, scope, via, now);
      if outcome.Created? {
        topic := topic + [ConsentGranted(id)];
      }
      return GrantReply(outcome);
    }

    method Revoke(id: Id, byApp: Id, reason: string, now: Time) returns (reply: Reply)
      modifies this, consentGrantsRepo
      ensures var s := Served(old(consentGrantsRepo.table), old(topic), RevokeRow(0, id, byApp, reason, now));
        && consentGrantsRepo.table == s.table && topic == s.topic && s.pending == map[]
        && reply == RevokeReply(OutcomeOfRevoke(old(consentGrantsRepo.table), id))
    {
      var outcome := consentGrantsRepo.Revoke(id, byApp, reason, now);
      if outcome.Revoked? {
        topic := topic + [ConsentRevoked(id)];
      }
      return RevokeReply(outcome);
    }
  }

  predicate SomeOpen(t: Table, account: Id, app: Id, scope: string) {
    exists id :: id in t.rows && IsOpenFor(t, id, account, app, scope)
  }

  /**
   * A grant is made exactly when none is open for the account, app and scope (and its identifier is
   * new): one open row as asked for is added. With one open it is a 409 that names it.
   */
  lemma GrantSucceedsExactlyWhen(t: Table, id: Id, account: Id, app: Id, scope: string, via: Id, now: Time)
    requires WellFormed(t)
    ensures var outcome, t' := OutcomeOfCreate(t, id, account, app, scope),
        WithGrant(t, id, account, app, scope, via, now);
      && (GrantReply(outcome) == Ok(201) <==> !SomeOpen(t, account, app, scope) && id !in t.rows)
      && (GrantReply(outcome) == Error(409, ConsentGrantAlreadyOpen) <==> SomeOpen(t, account, app, scope))
      && (outcome.AlreadyOpen? ==> IsOpenFor(t, outcome.existing, account, app, scope))
      && (GrantReply(outcome) == Ok(201) ==>
          && id in t'.rows && t'.rows == t.rows[id := t'.rows[id]] && t'.order == t.order + [id]
          && var g := t'.rows[id];
          && IsOpenFor(t', id, account, app, scope) && g.id == id
          && g.grantedAt == now && g.grantedVia == via && g.revokedBy.None? && g.revokeReason.None?)
      && (GrantReply(outcome) != Ok(201) ==> t' == t)
  {
    if a :| a in t.rows && IsOpenFor(t, a, account, app, scope) {
      assert a in t.order;
    }
  }

  /** A revocation happens exactly once, to an open grant, and says who, why and when. */
  lemma RevokeSucceedsExactlyWhen(t: Table, id: Id, byApp: Id, reason: string, now: Time)
    ensures var reply, t' := RevokeReply(OutcomeOfRevoke(t, id)), WithRevoked(t, id, byApp, reason, now);
      && (reply == Ok(200) <==> IsOpen(t, id))
      && (reply == Error(404, ConsentGrantNotFound) <==> id !in t.rows)
      && (reply == Error(409, ConsentGrantAlreadyRevoked) <==> id in t.rows && !IsOpen(t, id))
      && (reply == Ok(200) ==>
          t' == t.(rows := t.rows[id := t.rows[id].(
            revokedAt := Some(now), revokedBy := Some(byApp), revokeReason := Some(reason))]))
      && (reply != Ok(200) ==> t' == t)
  {}

  lemma ReplayNext(topic: seq<ConsentEvent>, e: ConsentEvent)
    ensures Replay(topic + [e]) == if e.ConsentGranted? then Replay(topic) + {e.id} else Replay(topic) - {e.id}
  {
    assert (topic + [e])[..|topic|] == topic;
  }

  /** The event a row change owes, if the row changed. */
  function Owed(table: Table, change: Action): Option<ConsentEvent> {
    match change
    case GrantRow(_, id, account, app, scope, _, _) =>
      if OutcomeOfCreate(table, id, account, app, scope).Created? then Some(ConsentGranted(id)) else None
    case RevokeRow(_, id, _, _, _) => if OutcomeOfRevoke(table, id).Revoked? then Some(ConsentRevoked(id)) else None
    case Publish(_) => None
  }

  function Changed(table: Table, change: Action): Table {
    match change
    case GrantRow(_, id, account, app, scope, via, now) => WithGrant(table, id, account, app, scope, via, now)
    case RevokeRow(_, id, byApp, reason, at) => WithRevoked(table, id, byApp, reason, at)
    case Publish(_) => table
  }

  lemma ServedOutcome(table: Table, topic: seq<ConsentEvent>, change: Action)
    requires !change.Publish? && change.pid == 0
    ensures var s, e := Served(table, topic, change), Owed(table, change);
      s.table == Changed(table, change) && s.pending == map[] && s.topic == if e.Some? then topic + [e.value] else topic
  {}

  /** The set of open grants moves exactly as the event says. */
  lemma OpenMoves(table: Table, change: Action, id: Id)
    requires WellFormed(table)
    ensures var e := Owed(table, change);
      IsOpen(Changed(table, change), id) <==>
        if e == Some(ConsentGranted(id)) then true
        else if e == Some(ConsentRevoked(id)) then false else IsOpen(table, id)
  {}

  /**
   * Handlers that are served one after the other: a consumer that replays the topic in order always
   * holds exactly the open grants.
   */
  lemma ServedKeepsExactReplay(table: Table, topic: seq<ConsentEvent>, change: Action)
    requires WellFormed(table) && !change.Publish? && change.pid == 0
    requires forall id :: id in Replay(topic) <==> IsOpen(table, id)
    ensures var s := Served(table, topic, change);
      forall id :: id in Replay(s.topic) <==> IsOpen(s.table, id)
  {
    var e := Owed(table, change);
    ServedOutcome(table, topic, change);
    if e.Some? {
      ReplayNext(topic, e.value);
    }
    forall id ensures id in Replay(Served(table, topic, change).topic) <==> IsOpen(Changed(table, change), id) {
      OpenMoves(table, change, id);
    }
  }
}
