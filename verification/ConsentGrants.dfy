/**
 * The consent store (src/repositories/consentGrants.memory.ts,
 * src/repositories/consentGrants.ts): at most one open grant per account, app and scope.
 */
module ConsentGrants {
  import opened Domain

  datatype Grant = Grant(
    id: Id, account: Id, app: Id, scope: string, grantedAt: Time, grantedVia: Id,
    revokedAt: Option<Time>, revokedBy: Option<Id>, revokeReason: Option<string>)

  /** Rows in insertion order, the order `findOpen` scans. */
  datatype Table = Table(order: seq<Id>, rows: map<Id, Grant>)

  datatype CreateOutcome = Created | AlreadyOpen(existing: Id) | DuplicateKey
  datatype RevokeOutcome = Revoked | AlreadyRevoked | NotFound

  ghost predicate WellFormed(t: Table) {
    && (forall id :: id in t.order <==> id in t.rows)
    && (forall id :: id in t.rows ==> t.rows[id].id == id)
  }

  predicate IsOpen(t: Table, id: Id) {
    id in t.rows && t.rows[id].revokedAt.None?
  }

  predicate IsOpenFor(t: Table, id: Id, account: Id, app: Id, scope: string) {
    IsOpen(t, id) && t.rows[id].account == account && t.rows[id].app == app && t.rows[id].scope == scope
  }

  function FirstOpen(t: Table, order: seq<Id>, account: Id, app: Id, scope: string): (r: Option<Id>)
    ensures r.Some? ==> r.value in order && IsOpenFor(t, r.value, account, app, scope)
    ensures r.None? ==> forall id :: id in order ==> !IsOpenFor(t, id, account, app, scope)
  {
    if order == [] then None
    else if IsOpenFor(t, order[0], account, app, scope) then Some(order[0])
    else FirstOpen(t, order[1..], account, app, scope)
  }

  function OutcomeOfCreate(t: Table, id: Id, account: Id, app: Id, scope: string): CreateOutcome {
    var existing := FirstOpen(t, t.order, account, app, scope);
    if existing.Some? then AlreadyOpen(existing.value)
    else if id in t.rows then DuplicateKey
    else Created
  }

  function NewGrant(id: Id, account: Id, app: Id, scope: string, via: Id, now: Time): Grant {
    Grant(id, account, app, scope, now, via, None, None, None)
  }

  function WithGrant(t: Table, id: Id, account: Id, app: Id, scope: string, via: Id, now: Time): Table {
    if OutcomeOfCreate(t, id, account, app, scope).Created? then
      Table(t.order + [id], t.rows[id := NewGrant(id, account, app, scope, via, now)])
    else t
  }

  function OutcomeOfRevoke(t: Table, id: Id): RevokeOutcome {
    if id !in t.rows then NotFound else if t.rows[id].revokedAt.Some? then AlreadyRevoked else Revoked
  }

  function WithRevoked(t: Table, id: Id, byApp: Id, reason: string, at: Time): Table {
    if OutcomeOfRevoke(t, id).Revoked? then
      t.(rows := t.rows[id := t.rows[id].(revokedAt := Some(at), revokedBy := Some(byApp),
          revokeReason := Some(reason))])
    else t
  }

  predicate SameKey(a: Grant, b: Grant) {
    a.account == b.account && a.app == b.app && a.scope == b.scope
  }

  ghost predicate OneOpenEach(t: Table) {
    forall a, b :: IsOpen(t, a) && IsOpen(t, b) && SameKey(t.rows[a], t.rows[b]) ==> a == b
  }

  lemma CreateKeepsOneOpen(t: Table, id: Id, account: Id, app: Id, scope: string, via: Id, now: Time)
    requires WellFormed(t) && OneOpenEach(t)
    ensures WellFormed(WithGrant(t, id, account, app, scope, via, now)) &&
        OneOpenEach(WithGrant(t, id, account, app, scope, via, now))
  {
    if OutcomeOfCreate(t, id, account, app, scope).Created? {
      var t' := WithGrant(t, id, account, app, scope, via, now);
      forall a | IsOpen(t', a) && SameKey(t'.rows[a], t'.rows[id]) ensures a == id {
        assert a != id ==> a in t.order && IsOpenFor(t, a, account, app, scope);
      }
    }
  }

  lemma RevokeKeepsOneOpen(t: Table, id: Id, byApp: Id, reason: string, at: Time)
    requires WellFormed(t) && OneOpenEach(t)
    ensures WellFormed(WithRevoked(t, id, byApp, reason, at)) && OneOpenEach(WithRevoked(t, id, byApp, reason, at))
  {
    var t' := WithRevoked(t, id, byApp, reason, at);
    assert forall a :: IsOpen(t', a) ==> IsOpen(t, a) && t'.rows[a] == t.rows[a];
  }

  class ConsentGrantsRepo {
    var table: Table

    constructor ()
      ensures table == Table([], map[])
    {
      table := Table([], map[]);
    }

    method FindOpen(account: Id, app: Id, scope: string) returns (r: Option<Id>)
      ensures r == FirstOpen(table, table.order, account, app, scope)
    {
      for i := 0 to |table.order|
        invariant FirstOpen(table, table.order, account, app, scope) == FirstOpen(table,
            table.order[i..], account, app, scope)
      {
        var id := table.order[i];
        if id in table.rows {
          var g := table.rows[id];
          if g.account == account && g.app == app && g.scope == scope && g.revokedAt.None? {
            return Some(id);
          }
        }
      }
      return None;
    }

    method Create(id: Id, account: Id, app: Id, scope: string, via: Id, now: Time) returns (r: CreateOutcome)
      modifies this
      ensures r == OutcomeOfCreate(old(table), id, account, app, scope)
      ensures table == WithGrant(old(table), id, account, app, scope, via, now)
    {
      var existing := FindOpen(account, app, scope);
      if existing.Some? { return AlreadyOpen(existing.value); }
      if id in table.rows { return DuplicateKey; }
      table := Table(table.order + [id], table.rows[id := NewGrant(id, account, app, scope, via, now)]);
      return Created;
    }

    method Revoke(id: Id, byApp: Id, reason: string, at: Time) returns (r: RevokeOutcome)
      modifies this
      ensures r == OutcomeOfRevoke(old(table), id)
      ensures table == WithRevoked(old(table), id, byApp, reason, at)
    {
      if id !in table.rows { return NotFound; }
      var g := table.rows[id];
      if g.revokedAt.Some? { return AlreadyRevoked; }
      g := g.(revokedAt := Some(at));
      g := g.(revokedBy := Some(byApp));
      g := g.(revokeReason := Some(reason));
      table := table.(rows := table.rows[id := g]);
      return Revoked;
    }
  }
}
