/**
 * When the challenge behind a stored token is consumed: always, if requests on the
 * challenge are served one at a time; and in general exactly when the first call that
 * closed the challenge recorded a success.
 */
module InterleavingSerial {
  import opened Domain
  import opened AuthChallenges
  import opened StepUpTokens
  import opened StepupRequests
  import opened Interleaving
  import opened InterleavingSafety
  import opened InterleavingAttempts

  // One request at a time.

  /** Who has read the challenge holds its current row, and whoever is past recording a success finds it consumed. */
  predicate UpToDate(s: State, cid: Id, p: Proc) {
    match p
    case Recording(read, _, _) => read.info.id == cid ==> cid in s.challenges && read == s.challenges[cid]
    case Minting(info) => info.id == cid ==> cid in s.challenges && s.challenges[cid].status == Consumed
    case _ => true
  }

  ghost predicate SerialInv(s: State, cid: Id) {
    && (forall p :: p in s.procs ==> UpToDate(s, cid, s.procs[p]))
    && (cid in s.tokens ==> cid in s.challenges && s.challenges[cid].status == Consumed)
  }

  lemma RecordKeepsSerialInv(s: State, pid: Pid, cid: Id)
    requires IssueInv(s) && SerialInv(s, cid) && |InFlight(s, cid)| <= 1 && pid in s.procs && s.procs[pid].Recording?
    ensures SerialInv(Recorded(s, pid), cid)
  {
    var s' := Recorded(s, pid);
    if s.procs[pid].read.info.id == cid {
      assert UpToDate(s, cid, s.procs[pid]);
      forall p | p in s'.procs ensures UpToDate(s', cid, s'.procs[p]) {
        assert UpToDate(s, cid, s.procs[p]);
        if p != pid && p in InFlight(s, cid) {
          SubsetSize({p, pid}, InFlight(s, cid));
        }
      }
    } else {
      forall p | p in s'.procs ensures UpToDate(s', cid, s'.procs[p]) {
        assert UpToDate(s, cid, s.procs[p]);
      }
    }
  }

  /** Other steps leave the rows of challenges alone; a process that reads, reads the current one. */
  lemma OtherStepsKeepSerialInv(s: State, e: Event, cid: Id)
    requires IssueInv(s) && SerialInv(s, cid) && !e.Record?
    ensures SerialInv(Apply(s, e), cid)
  {
    var s' := Apply(s, e);
    if cid in s.challenges {
      RowsKept(s, e, cid);
    }
    forall p | p in s'.procs ensures UpToDate(s', cid, s'.procs[p]) {
      NewProcesses(s, e, p);
      assert p in s.procs ==> UpToDate(s, cid, s.procs[p]);
    }
    if cid in s'.tokens {
      NewTokens(s, e, cid);
    }
    assert forall p :: p in s.procs && s.procs[p].Minting? ==> UpToDate(s, cid, s.procs[p]);
  }

  /** Without a record no process starts minting, and one that starts recording has read the row as it is. */
  lemma NewProcesses(s: State, e: Event, p: Pid)
    requires ChallengesKeyed(s) && !e.Record? && p in Apply(s, e).procs
    ensures var q := Apply(s, e).procs[p];
      (p in s.procs && q == s.procs[p]) || (!q.Minting? && ReadNow(Apply(s, e), q))
  {}

  /** A token that was not there before was stored by a process that was minting it. */
  lemma NewTokens(s: State, e: Event, jti: Id)
    requires jti in Apply(s, e).tokens
    ensures jti in s.tokens || exists p :: p in s.procs && s.procs[p].Minting? && s.procs[p].info.id == jti
  {}

  lemma {:induction false} RunKeepsSerialInv(es: seq<Event>, cid: Id)
    requires AtMostInFlight(es, cid, 1)
    ensures SerialInv(Run(es), cid)
  {
    if es != [] {
      var s, e := Run(es[..|es| - 1]), es[|es| - 1];
      RunKeepsSerialInv(es[..|es| - 1], cid);
      RunKeepsIssueInv(es[..|es| - 1]);
      if !e.Record? {
        OtherStepsKeepSerialInv(s, e, cid);
      } else if e.pid in s.procs && s.procs[e.pid].Recording? {
        RecordKeepsSerialInv(s, e.pid, cid);
      }
    }
  }

  /**
   * In every interleaving in which never more than one request is in flight on a
   * challenge, a token stored for it means that it is consumed.
   */
  lemma {:induction false} SerialTokensAreConsumed(es: seq<Event>, jti: Id)
    requires AtMostInFlight(es, jti, 1) && jti in Run(es).tokens
    ensures jti in Run(es).challenges && Run(es).challenges[jti].status == Consumed
  {
    RunKeepsSerialInv(es, jti);
  }

  // Any number of requests.

  predicate Closes(call: (Id, AttemptUpdate), cid: Id) {
    call.0 == cid && call.1.status != Pending
  }

  /** The status recorded by the first call that closed the challenge. */
  function FirstClosing(calls: seq<(Id, AttemptUpdate)>, cid: Id): Option<Status> {
    if calls == [] then None
    else
      var before := FirstClosing(calls[..|calls| - 1], cid);
      if before.Some? then before
      else if Closes(calls[|calls| - 1], cid) then Some(calls[|calls| - 1].1.status)
      else None
  }

  predicate IsFirstClosing(calls: seq<(Id, AttemptUpdate)>, cid: Id, i: nat) {
    i < |calls| && Closes(calls[i], cid) && forall j :: 0 <= j < i ==> !Closes(calls[j], cid)
  }

  /** What `FirstClosing` computes. */
  lemma {:induction false} FirstClosingIsFirst(calls: seq<(Id, AttemptUpdate)>, cid: Id) returns (i: nat)
    ensures FirstClosing(calls, cid).Some? ==>
        IsFirstClosing(calls, cid, i) && calls[i].1.status == FirstClosing(calls, cid).value
    ensures FirstClosing(calls, cid).None? ==> forall j :: 0 <= j < |calls| ==> !Closes(calls[j], cid)
  {
    i := 0;
    if calls != [] {
      var rest := calls[..|calls| - 1];
      i := FirstClosingIsFirst(rest, cid);
      if FirstClosing(rest, cid).None? {
        assert forall j :: 0 <= j < |rest| ==> calls[j] == rest[j];
        i := |calls| - 1;
      }
    }
  }

  lemma FirstClosingNext(calls: seq<(Id, AttemptUpdate)>, call: (Id, AttemptUpdate), cid: Id)
    ensures FirstClosing(calls + [call], cid) ==
      if FirstClosing(calls, cid).Some? then FirstClosing(calls, cid)
      else if Closes(call, cid) then Some(call.1.status) else None
  {
    assert (calls + [call])[..|calls|] == calls;
  }

  predicate HasStatusOf(s: State, cid: Id) {
    cid in s.challenges ==>
      var first := FirstClosing(s.calls, cid);
      s.challenges[cid].status == if first.Some? then first.value else Pending
  }

  lemma ApplyKeepsStatus(s: State, e: Event, cid: Id)
    requires IssueInv(s) && CallsCounted(s) && HasStatusOf(s, cid)
    ensures HasStatusOf(Apply(s, e), cid)
  {
    if e.Record? {
      if cid in s.challenges { PendingIsUnclosed(s, cid); }
      RecordKeepsStatus(s, e.pid, cid);
    } else {
      OtherEventsAddFreshRows(s, e);
      FreshRowsKeepStatus(s, Apply(s, e), cid);
    }
  }

  lemma RecordKeepsStatus(s: State, pid: Pid, cid: Id)
    requires IssueInv(s) && HasStatusOf(s, cid)
    requires cid in s.challenges ==> (s.challenges[cid].status == Pending <==> FirstClosing(s.calls, cid).None?)
    ensures HasStatusOf(Recorded(s, pid), cid)
  {
    if pid in s.procs && s.procs[pid].Recording? {
      FirstClosingNext(s.calls, (s.procs[pid].read.info.id, s.procs[pid].next), cid);
    }
  }

  /** No call has been made for a row that is new. */
  lemma FreshRowsKeepStatus(s: State, s': State, cid: Id)
    requires CallsCounted(s) && HasStatusOf(s, cid) && s'.calls == s.calls && OnlyFreshRows(s, s')
    ensures HasStatusOf(s', cid)
  {
    var i := FirstClosingIsFirst(s.calls, cid);
    if FirstClosing(s.calls, cid).Some? {
      assert s.calls[i].0 in s.challenges;
    }
  }

  /** A row is pending exactly while no call has closed it. */
  lemma PendingIsUnclosed(s: State, cid: Id)
    requires CallsCounted(s) && HasStatusOf(s, cid) && cid in s.challenges
    ensures s.challenges[cid].status == Pending <==> FirstClosing(s.calls, cid).None?
  {
    var i := FirstClosingIsFirst(s.calls, cid);
  }

  lemma {:induction false} StatusIsTheFirstClosing(es: seq<Event>, cid: Id)
    ensures HasStatusOf(Run(es), cid)
  {
    if es != [] {
      var init := es[..|es| - 1];
      StatusIsTheFirstClosing(init, cid);
      RunKeepsIssueInv(init);
      RunCounted(init);
      ApplyKeepsStatus(Run(init), es[|es| - 1], cid);
    }
  }

  /**
   * In every interleaving the challenge of a stored token is consumed if and only if the
   * first of the recordAttempt calls that closed it recorded a success: no earlier call
   * failed or expired it.
   */
  lemma {:induction false} ConsumedExactlyWhenTheFirstClosingSucceeded(es: seq<Event>, jti: Id)
    requires jti in Run(es).tokens
    ensures var s := Run(es);
      && jti in s.challenges
      && (s.challenges[jti].status == Consumed <==> exists i: nat ::
          IsFirstClosing(s.calls, jti, i) && s.calls[i].1.status == Consumed)
  {
    RunKeepsIssueInv(es);
    StatusIsTheFirstClosing(es, jti);
    var s := Run(es);
    assert MintedFrom(s, jti);
    var first := FirstClosingIsFirst(s.calls, jti);
    forall i: nat | IsFirstClosing(s.calls, jti, i) ensures i == first {
      assert Closes(s.calls[i], jti) && Closes(s.calls[first], jti);
    }
  }
}
