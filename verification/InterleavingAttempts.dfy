/**
 * The attempt limit under concurrency. The limit is applied to the count each request
 * read, so with several requests in flight on one challenge it can be passed; here is by
 * exactly how much.
 */
module InterleavingAttempts {
  import opened Domain
  import opened AuthChallenges
  import opened StepUpTokens
  import opened StepupRequests
  import opened Interleaving
  import opened InterleavingSafety

  /** The requests that have read challenge `cid` and have not yet recorded their attempt. */
  function InFlight(s: State, cid: Id): set<Pid> {
    set p | p in s.procs && s.procs[p].Recording? && s.procs[p].read.info.id == cid
  }

  /** Those among them whose read allows the challenge to stay pending after a wrong answer. */
  function Lenient(s: State, cid: Id): set<Pid> {
    set p | p in InFlight(s, cid) && s.procs[p].read.attemptsUsed + 1 < MAX_OTP_ATTEMPTS
  }

  /** At no moment of the run are more than `k` requests in flight on the challenge. */
  ghost predicate AtMostInFlight(es: seq<Event>, cid: Id, k: nat) {
    |InFlight(Run(es), cid)| <= k && (es != [] ==> AtMostInFlight(es[..|es| - 1], cid, k))
  }

  ghost predicate Within(s: State, cid: Id, k: nat) {
    cid in s.challenges ==>
      var c := s.challenges[cid];
      match c.status
      case Pending => c.attemptsUsed < 2 || c.attemptsUsed + |Lenient(s, cid)| <= k + 1
      case Failed => 3 <= c.attemptsUsed <= k + 2
      case _ => c.attemptsUsed <= k + 2
  }

  /** A step that records nothing keeps the rows of existing challenges. */
  lemma RowsKept(s: State, e: Event, cid: Id)
    requires !e.Record? && cid in s.challenges
    ensures cid in Apply(s, e).challenges && Apply(s, e).challenges[cid] == s.challenges[cid]
  {}

  predicate ReadNow(s: State, p: Proc) {
    p.Recording? ==> p.read.info.id in s.challenges && p.read == s.challenges[p.read.info.id]
  }

  /** Only a read makes a process that has an attempt to record, and it has read the current row. */
  lemma NewReadersReadNow(s: State, e: Event, p: Pid)
    requires ChallengesKeyed(s) && p in Apply(s, e).procs
    ensures (p in s.procs && Apply(s, e).procs[p] == s.procs[p]) || ReadNow(s, Apply(s, e).procs[p])
  {}

  lemma LenientShrinks(s: State, e: Event, cid: Id)
    requires ChallengesKeyed(s) && cid in s.challenges && s.challenges[cid].attemptsUsed >= 2
    ensures Lenient(Apply(s, e), cid) <= Lenient(s, cid)
  {
    forall p | p in Lenient(Apply(s, e), cid) ensures p in Lenient(s, cid) {
      NewReadersReadNow(s, e, p);
    }
  }

  lemma SubsetSize<T>(a: set<T>, b: set<T>)
    requires a <= b
    ensures |a| <= |b|
  {
    if a != {} {
      var x :| x in a;
      SubsetSize(a - {x}, b - {x});
    }
  }

  lemma RecordLeavesFlight(s: State, pid: Pid, cid: Id)
    requires pid in s.procs && s.procs[pid].Recording?
    ensures InFlight(Recorded(s, pid), cid) == InFlight(s, cid) - {pid}
    ensures Lenient(Recorded(s, pid), cid) == Lenient(s, cid) - {pid}
  {}

  lemma RecordStaysWithin(s: State, pid: Pid, cid: Id, k: nat)
    requires IssueInv(s) && Within(s, cid, k) && |InFlight(s, cid)| <= k
    requires pid in s.procs && s.procs[pid].Recording?
    ensures Within(Recorded(s, pid), cid, k)
  {
    RecordLeavesFlight(s, pid, cid);
    SubsetSize(Lenient(s, cid), InFlight(s, cid));
    if s.procs[pid].read.info.id == cid {
      assert pid in InFlight(s, cid);
    } else {
      assert pid !in InFlight(s, cid);
    }
  }

  lemma ApplyStaysWithin(s: State, e: Event, cid: Id, k: nat)
    requires IssueInv(s) && Within(s, cid, k) && |InFlight(s, cid)| <= k
    ensures Within(Apply(s, e), cid, k)
  {
    if e.Record? {
      if e.pid in s.procs && s.procs[e.pid].Recording? {
        RecordStaysWithin(s, e.pid, cid, k);
      }
    } else if cid in s.challenges {
      RowsKept(s, e, cid);
      if s.challenges[cid].attemptsUsed >= 2 {
        LenientShrinks(s, e, cid);
        SubsetSize(Lenient(Apply(s, e), cid), Lenient(s, cid));
      }
    }
  }

  /**
   * With at most `k` requests in flight on a challenge, whatever endpoint they are at
   * and however they interleave: its attempt count never exceeds k + 2, and it fails
   * with at least 3. Served one at a time (k = 1) it fails at exactly 3.
   */
  lemma {:induction false} AttemptsBounded(es: seq<Event>, cid: Id, k: nat)
    requires AtMostInFlight(es, cid, k)
    ensures Within(Run(es), cid, k)
    ensures cid in Run(es).challenges ==> Run(es).challenges[cid].attemptsUsed <= k + 2
    ensures cid in Run(es).challenges && Run(es).challenges[cid].status == Failed && k <= 1 ==>
        Run(es).challenges[cid].attemptsUsed == 3
  {
    if es != [] {
      var s := Run(es[..|es| - 1]);
      AttemptsBounded(es[..|es| - 1], cid, k);
      RunKeepsIssueInv(es[..|es| - 1]);
      ApplyStaysWithin(s, es[|es| - 1], cid, k);
    }
    SubsetSize(Lenient(Run(es), cid), InFlight(Run(es), cid));
  }

  // No increment is lost.

  predicate Closed(calls: seq<(Id, AttemptUpdate)>, cid: Id) {
    exists i :: 0 <= i < |calls| && calls[i].0 == cid && calls[i].1.status != Pending
  }

  /** The increments requested for `cid` up to and including the call that closed it. */
  function Increments(calls: seq<(Id, AttemptUpdate)>, cid: Id): nat {
    if calls == [] then 0
    else
      var last := calls[|calls| - 1];
      var rest := calls[..|calls| - 1];
      Increments(rest, cid) + if last.0 == cid && last.1.increment && !Closed(rest, cid) then 1 else 0
  }

  ghost predicate CallsCounted(s: State) {
    && (forall cid :: cid in s.challenges ==>
        s.challenges[cid].attemptsUsed == Increments(s.calls, cid) &&
            (s.challenges[cid].status == Pending <==> !Closed(s.calls, cid)))
    && (forall i :: 0 <= i < |s.calls| ==> s.calls[i].0 in s.challenges)
  }

  lemma {:induction false} UnknownHasNoIncrements(calls: seq<(Id, AttemptUpdate)>, cid: Id)
    requires forall i :: 0 <= i < |calls| ==> calls[i].0 != cid
    ensures Increments(calls, cid) == 0 && !Closed(calls, cid)
  {
    if calls != [] {
      UnknownHasNoIncrements(calls[..|calls| - 1], cid);
    }
  }

  lemma CallAppended(calls: seq<(Id, AttemptUpdate)>, call: (Id, AttemptUpdate), cid: Id)
    ensures Closed(calls + [call], cid) <==> Closed(calls, cid) || (call.0 == cid && call.1.status != Pending)
    ensures Increments(calls + [call], cid) == Increments(calls, cid) + if call.0 == cid && call.1.increment &&
        !Closed(calls, cid) then 1 else 0
  {
    var all := calls + [call];
    assert all[..|all| - 1] == calls;
    if Closed(calls, cid) {
      var i :| 0 <= i < |calls| && calls[i].0 == cid && calls[i].1.status != Pending;
      assert all[i] == calls[i];
    }
    if call.0 == cid && call.1.status != Pending {
      assert all[|calls|] == call;
    }
  }

  lemma RecordCounted(s: State, pid: Pid)
    requires IssueInv(s) && CallsCounted(s)
    ensures CallsCounted(Recorded(s, pid))
  {
    if pid in s.procs && s.procs[pid].Recording? {
      var s' := Recorded(s, pid);
      var call := (s.procs[pid].read.info.id, s.procs[pid].next);
      forall cid | cid in s'.challenges
        ensures s'.challenges[cid].attemptsUsed == Increments(s'.calls, cid) &&
            (s'.challenges[cid].status == Pending <==> !Closed(s'.calls, cid))
      {
        CallAppended(s.calls, call, cid);
      }
    }
  }

  /** Rows that stay, and rows that are new. */
  ghost predicate OnlyFreshRows(s: State, s': State) {
    forall cid :: cid in s'.challenges ==>
      if cid in s.challenges then s'.challenges[cid] == s.challenges[cid]
      else s'.challenges[cid].attemptsUsed == 0 && s'.challenges[cid].status == Pending
  }

  lemma OtherEventsAddFreshRows(s: State, e: Event)
    requires !e.Record?
    ensures Apply(s, e).calls == s.calls && OnlyFreshRows(s, Apply(s, e))
  {}

  lemma FreshRowsCounted(s: State, s': State)
    requires IssueInv(s) && CallsCounted(s) && s'.calls == s.calls && OnlyFreshRows(s, s')
    requires s.challenges.Keys <= s'.challenges.Keys
    ensures CallsCounted(s')
  {
    forall cid | cid in s'.challenges
      ensures s'.challenges[cid].attemptsUsed == Increments(s'.calls, cid) &&
          (s'.challenges[cid].status == Pending <==> !Closed(s'.calls, cid))
    {
      if cid !in s.challenges {
        UnknownHasNoIncrements(s.calls, cid);
      }
    }
  }

  lemma ApplyCounted(s: State, e: Event)
    requires IssueInv(s) && CallsCounted(s)
    ensures CallsCounted(Apply(s, e))
  {
    if e.Record? {
      RecordCounted(s, e.pid);
    } else {
      OtherEventsAddFreshRows(s, e);
      forall cid | cid in s.challenges ensures cid in Apply(s, e).challenges {
        RowsKept(s, e, cid);
      }
      FreshRowsCounted(s, Apply(s, e));
    }
  }

  /**
   * In every interleaving the stored count is the number of increments requested for the
   * challenge up to the call that closed it: concurrent increments are never merged or lost.
   */
  lemma {:induction false} NoIncrementLost(es: seq<Event>, cid: Id)
    requires cid in Run(es).challenges
    ensures Run(es).challenges[cid].attemptsUsed == Increments(Run(es).calls, cid)
    ensures Run(es).challenges[cid].status == Pending <==> !Closed(Run(es).calls, cid)
  {
    RunCounted(es);
  }

  lemma {:induction false} RunCounted(es: seq<Event>)
    ensures CallsCounted(Run(es))
  {
    if es != [] {
      RunCounted(es[..|es| - 1]);
      RunKeepsIssueInv(es[..|es| - 1]);
      ApplyCounted(Run(es[..|es| - 1]), es[|es| - 1]);
    }
  }
}
