/** Runs that show how far the concurrent guarantees reach, and no further. */
module InterleavingWitnesses {
  import opened Domain
  import opened AuthChallenges
  import opened StepUpTokens
  import opened StepupRequests
  import opened Interleaving
  import opened InterleavingSafety
  import opened InterleavingAttempts

  const LOGIN := ChallengeInfo(0, Some(1), None, 0, PhoneOtp, Login, Some("h"), None, 600000, None,
      None, None, None, None)
  const WRONG := TextCode(false)
  const RETRY := AttemptUpdate(Pending, None, true)

  function Row(attempts: nat): Challenge {
    Challenge(LOGIN, attempts, Pending, None, 0)
  }

  // One wrong answer, then k requests that all read the count 1 before any of them records.

  function Reads(n: nat): seq<Event> {
    if n == 0 then [CreateChallenge(LOGIN, 0), ReadForLogin(0, 0, WRONG, 1), Record(0)]
    else Reads(n - 1) + [ReadForLogin(n, 0, WRONG, 1)]
  }

  function Records(k: nat, m: nat): seq<Event> {
    if m == 0 then Reads(k) else Records(k, m - 1) + [Record(m)]
  }

  /** `attempts` recorded; requests up to `done` finished, requests after it up to `last` still hold the count 1. */
  ghost predicate Shape(s: State, attempts: nat, done: nat, last: nat) {
    && s.challenges == map[0 := Row(attempts)]
    && (forall p: nat :: p in s.procs <==> p <= last)
    && (forall p :: p in s.procs ==> s.procs[p] == if p <= done then Finished else Recording(Row(1), RETRY, false))
  }

  lemma {:induction false} RangeSize(s: set<nat>, lo: nat, hi: nat)
    requires lo <= hi && forall p: nat :: p in s <==> lo < p <= hi
    ensures |s| == hi - lo
    decreases hi - lo
  {
    if lo == hi {
      assert s == {};
    } else {
      RangeSize(s - {hi}, lo, hi - 1);
    }
  }

  lemma ShapeInFlight(s: State, attempts: nat, done: nat, last: nat)
    requires done <= last && Shape(s, attempts, done, last)
    ensures |InFlight(s, 0)| == last - done
  {
    forall p: nat ensures p in InFlight(s, 0) <==> done < p <= last {}
    RangeSize(InFlight(s, 0), done, last);
  }

  lemma FlightExtends(es: seq<Event>, e: Event, cid: Id, k: nat)
    requires AtMostInFlight(es, cid, k) && |InFlight(Apply(Run(es), e), cid)| <= k
    ensures AtMostInFlight(es + [e], cid, k)
  {
    RunExtends(es, e);
    assert (es + [e])[..|es + [e]| - 1] == es;
  }

  lemma OpeningShape(k: nat)
    requires k >= 1
    ensures Shape(Run(Reads(0)), 1, 0, 0) && AtMostInFlight(Reads(0), 0, k)
  {
    var e0, e1, e2 := CreateChallenge(LOGIN, 0), ReadForLogin(0, 0, WRONG, 1), Record(0);
    assert Reads(0) == [] + [e0] + [e1] + [e2];
    RunExtends([], e0); RunExtends([] + [e0], e1); RunExtends([] + [e0] + [e1], e2);
    assert InFlight(INIT, 0) == {};
    var s1 := Apply(INIT, e0);
    assert s1 == INIT.(challenges := map[0 := Row(0)]);
    assert InFlight(s1, 0) == {};
    FlightExtends([], e0, 0, k);
    var s2 := Apply(s1, e1);
    assert s2 == s1.(procs := map[0 := Recording(Row(0), RETRY, false)]);
    assert InFlight(s2, 0) == {0};
    FlightExtends([] + [e0], e1, 0, k);
    var s3 := Apply(s2, e2);
    assert s3.challenges == map[0 := Row(1)] && s3.procs == map[0 := Finished];
    assert InFlight(s3, 0) == {};
    FlightExtends([] + [e0] + [e1], e2, 0, k);
  }

  lemma ReadStep(s: State, n: nat)
    requires n >= 1 && Shape(s, 1, 0, n - 1)
    ensures Shape(Apply(s, ReadForLogin(n, 0, WRONG, 1)), 1, 0, n)
  {
    assert Apply(s, ReadForLogin(n, 0, WRONG, 1)) == s.(procs := s.procs[n := Recording(Row(1), RETRY, false)]);
  }

  lemma {:induction false} ReadsShape(n: nat, k: nat)
    requires 1 <= k && n <= k
    ensures Shape(Run(Reads(n)), 1, 0, n) && AtMostInFlight(Reads(n), 0, k)
  {
    if n == 0 {
      OpeningShape(k);
    } else {
      var e := ReadForLogin(n, 0, WRONG, 1);
      ReadsShape(n - 1, k);
      ReadStep(Run(Reads(n - 1)), n);
      RunExtends(Reads(n - 1), e);
      ShapeInFlight(Run(Reads(n)), 1, 0, n);
      FlightExtends(Reads(n - 1), e, 0, k);
    }
  }

  lemma RecordStep(s: State, m: nat, k: nat)
    requires 1 <= m <= k && Shape(s, m, m - 1, k)
    ensures Shape(Apply(s, Record(m)), 1 + m, m, k)
  {
    var s' := Apply(s, Record(m));
    assert s.procs[m] == Recording(Row(1), RETRY, false);
    assert s'.challenges == map[0 := Row(1 + m)];
    assert s'.procs == s.procs[m := Finished];
  }

  lemma {:induction false} RecordsShape(k: nat, m: nat)
    requires 1 <= k && m <= k
    ensures Shape(Run(Records(k, m)), 1 + m, m, k) && AtMostInFlight(Records(k, m), 0, k)
  {
    if m == 0 {
      ReadsShape(k, k);
    } else {
      RecordsShape(k, m - 1);
      RecordStep(Run(Records(k, m - 1)), m, k);
      RunExtends(Records(k, m - 1), Record(m));
      ShapeInFlight(Run(Records(k, m)), 1 + m, m, k);
      FlightExtends(Records(k, m - 1), Record(m), 0, k);
    }
  }

  function WorstRun(k: nat): seq<Event> {
    Records(k, k) + [ReadForLogin(k + 1, 0, WRONG, 1)] + [Record(k + 1)]
  }

  /**
   * The bound k + 2 is attained for every k, so "max 3 attempts then invalidate"
   * (src/services/otp.ts:5) holds exactly when requests on a challenge are served one at a time.
   */
  lemma BoundIsAttained(k: nat)
    requires k >= 1
    ensures AtMostInFlight(WorstRun(k), 0, k)
    ensures 0 in Run(WorstRun(k)).challenges
    ensures Run(WorstRun(k)).challenges[0].status == Failed && Run(WorstRun(k)).challenges[0].attemptsUsed == k + 2
  {
    RecordsShape(k, k);
    var es := Records(k, k);
    var s := Run(es);
    var read, record := ReadForLogin(k + 1, 0, WRONG, 1), Record(k + 1);
    RunExtends(es, read);
    RunExtends(es + [read], record);
    LastAnswer(s, k);
    FlightExtends(es, read, 0, k);
    FlightExtends(es + [read], record, 0, k);
  }

  lemma LastAnswer(s: State, k: nat)
    requires k >= 1 && Shape(s, 1 + k, k, k)
    ensures var s1 := Apply(s, ReadForLogin(k + 1, 0, WRONG, 1));
      var s2 := Apply(s1, Record(k + 1));
      && |InFlight(s1, 0)| == 1 && |InFlight(s2, 0)| == 0
      && 0 in s2.challenges && s2.challenges[0].status == Failed && s2.challenges[0].attemptsUsed == k + 2
  {
    var s1 := Apply(s, ReadForLogin(k + 1, 0, WRONG, 1));
    assert s1 == s.(procs := s.procs[k + 1 := Recording(Row(1 + k), AttemptUpdate(Failed, Some(1), true), false)]);
    assert InFlight(s1, 0) == {k + 1};
    var s2 := Apply(s1, Record(k + 1));
    assert s2.procs == s1.procs[k + 1 := Finished];
    assert InFlight(s2, 0) == {};
  }

  // A token whose challenge failed.

  const BOUND := ChallengeInfo(
    0, Some(1), None, 0, PhoneOtp, StepUp, Some("h"), None, 180000,
    Some("identiti.phone_change"), Some("https://api.id.identiti.co.ke"), Some(High), None, None)

  /** Request 0 has read the pending challenge and answered correctly, and has not recorded that yet. */
  lemma EarlyReader() returns (es: seq<Event>, s: State)
    ensures Run(es) == s && s.tokens == map[] && s.challenges == map[0 := Challenge(BOUND, 0, Pending, None, 0)]
    ensures s.procs == map[0 := Recording(Challenge(BOUND, 0, Pending, None, 0), Success(1), true)]
    ensures AtMostInFlight(es, 0, 2)
  {
    var e1, e2 := CreateChallenge(BOUND, 0), ReadForStepup(0, 0, TextCode(true), 1);
    assert "identiti.phone_change"[0] != "operator."[0];
    assert InFlight(INIT, 0) == {};
    RunExtends([], e1);
    var s1 := Apply(INIT, e1);
    assert s1 == INIT.(challenges := map[0 := Challenge(BOUND, 0, Pending, None, 0)]);
    assert InFlight(s1, 0) == {};
    FlightExtends([], e1, 0, 2);
    RunExtends([] + [e1], e2);
    es := [] + [e1] + [e2];
    s := Apply(s1, e2);
    assert InFlight(s, 0) == {0};
    FlightExtends([] + [e1], e2, 0, 2);
  }

  /**
   * `Consumed` would be too strong for the concurrent system. Request 0 reads and answers
   * correctly; requests 1 to 3 answer wrongly one after another, and the challenge fails;
   * then request 0 records, stores its token and returns it. At no moment are more than
   * two requests in flight, so one at a time is the exact condition.
   */
  lemma TokenOfAFailedChallenge() returns (es: seq<Event>)
    ensures AtMostInFlight(es, 0, 2)
    ensures var s := Run(es);
      0 in s.tokens && 0 in s.challenges && s.challenges[0].status == Failed && 0 in s.procs &&
          s.procs[0] == Returned(0)
  {
    var s: State;
    es, s := EarlyReader();
    es, s := WrongAnswer(es, s, 1);
    es, s := WrongAnswer(es, s, 2);
    es, s := WrongAnswer(es, s, 3);
    assert s.challenges[0].status == Failed;
    es, s := LateSuccess(es, s);
  }

  /** Another request answers wrongly while request 0 is in flight. */
  lemma WrongAnswer(es: seq<Event>, s: State, pid: Pid) returns (es': seq<Event>, s': State)
    requires Run(es) == s && pid !in s.procs && s.tokens == map[] && AtMostInFlight(es, 0, 2) && InFlight(s, 0) == {0}
    requires 0 in s.challenges && s.challenges[0].info == BOUND && s.challenges[0].status == Pending
    ensures Run(es') == s' && s'.tokens == map[] && s'.procs == s.procs[pid := Finished]
    ensures s'.challenges == s.challenges[0 := Updated(s.challenges[0], FailureUpdate(s.challenges[0], 1))]
    ensures AtMostInFlight(es', 0, 2) && InFlight(s', 0) == {0}
  {
    var read := ReadForStepup(pid, 0, WRONG, 1);
    RunExtends(es, read);
    RunExtends(es + [read], Record(pid));
    es' := es + [read] + [Record(pid)];
    var s1 := Apply(s, read);
    s' := Apply(s1, Record(pid));
    assert s1.procs == s.procs[pid := Recording(s.challenges[0], FailureUpdate(s.challenges[0], 1), false)];
    assert InFlight(s1, 0) == {0, pid};
    FlightExtends(es, read, 0, 2);
    assert InFlight(s', 0) == {0};
    FlightExtends(es + [read], Record(pid), 0, 2);
  }

  lemma LateSuccess(es: seq<Event>, s: State) returns (es': seq<Event>, s': State)
    requires Run(es) == s && s.tokens == map[] && AtMostInFlight(es, 0, 2)
    requires 0 in s.challenges && s.challenges[0].status == Failed
    requires 0 in s.procs && s.procs[0] == Recording(Challenge(BOUND, 0, Pending, None, 0), Success(1), true) &&
        InFlight(s, 0) == {0}
    ensures Run(es') == s' && AtMostInFlight(es', 0, 2)
    ensures 0 in s'.tokens && s'.challenges == s.challenges && 0 in s'.procs && s'.procs[0] == Returned(0)
  {
    RunExtends(es, Record(0));
    RunExtends(es + [Record(0)], Mint(0, 1));
    es' := es + [Record(0)] + [Mint(0, 1)];
    var s1 := Apply(s, Record(0));
    s' := Apply(s1, Mint(0, 1));
    assert s1.procs == s.procs[0 := Minting(BOUND)] && s1.challenges == s.challenges && s1.tokens == map[];
    RecordLeavesFlight(s, 0, 0);
    assert InFlight(s1, 0) == {};
    assert s'.procs == s1.procs[0 := Returned(0)];
    forall p ensures p !in InFlight(s', 0) {
      assert p !in InFlight(s1, 0);
    }
    assert InFlight(s', 0) == {};
    FlightExtends(es, Record(0), 0, 2);
    FlightExtends(es + [Record(0)], Mint(0, 1), 0, 2);
  }
}
