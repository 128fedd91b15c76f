/**
 * Rider verification (src/repositories/riderKyc.memory.ts, src/routes/riderKyc.ts). The
 * verdicts of the outside registries are inputs.
 */
module RiderKyc {
  import opened Domain
  import Cust = Customers

  datatype Kind = DrivingLicence | MotorbikeRegistration | MpesaOwnershipProbe | Insurance

  datatype Artefact = Artefact(
    id: Id, submissionId: Id, account: Id, kind: Kind, verified: bool,
    licenceHash: Option<string>, bikeHash: Option<string>, mpesaHash: Option<string>, expiry: Option<Time>)

  datatype Submission = Submission(id: Id, account: Id, verified: bool, riderClass: Cust.RiderClass, submittedAt: Time,
      expiresAt: Option<Time>)

  /** Submissions in the order they were stored. */
  datatype Store = Store(submissions: seq<Submission>, artefacts: seq<Artefact>)

  datatype CreateOutcome = Created | Collision(kind: Kind) | DuplicateKey

  predicate Clashes(a: Artefact, stored: Artefact) {
    && a.verified && stored.verified && stored.account != a.account && stored.kind == a.kind
    && ((a.kind == DrivingLicence && a.licenceHash.Some? && stored.licenceHash == a.licenceHash)
        || (a.kind == MotorbikeRegistration && a.bikeHash.Some? && stored.bikeHash == a.bikeHash))
  }

  predicate HasClash(s: Store, a: Artefact) {
    exists i :: 0 <= i < |s.artefacts| && Clashes(a, s.artefacts[i])
  }

  /** The first input that clashes, in input order. */
  function FirstClash(s: Store, inputs: seq<Artefact>): Option<Kind> {
    if inputs == [] then None
    else if HasClash(s, inputs[0]) then Some(inputs[0].kind)
    else FirstClash(s, inputs[1..])
  }

  predicate HasSubmission(s: Store, id: Id) {
    exists i :: 0 <= i < |s.submissions| && s.submissions[i].id == id
  }

  function OutcomeOfCreate(s: Store, sub: Submission, inputs: seq<Artefact>): CreateOutcome {
    var clash := FirstClash(s, inputs);
    if clash.Some? then Collision(clash.value)
    else if HasSubmission(s, sub.id) then DuplicateKey
    else Created
  }

  /** All or nothing. */
  function WithSubmission(s: Store, sub: Submission, inputs: seq<Artefact>): Store {
    if OutcomeOfCreate(s, sub, inputs).Created? then Store(s.submissions + [sub], s.artefacts + inputs) else s
  }

  lemma {:induction false} FirstClashNone(s: Store, inputs: seq<Artefact>)
    ensures FirstClash(s, inputs).None? <==> forall a :: a in inputs ==> !HasClash(s, a)
  {
    if inputs != [] {
      FirstClashNone(s, inputs[1..]);
    }
  }

  class RiderKycRepo {
    var submissions: seq<Submission>
    var artefacts: seq<Artefact>

    constructor ()
      ensures Contents() == Store([], [])
    {
      submissions, artefacts := [], [];
    }

    function Contents(): Store
      reads this
    {
      Store(submissions, artefacts)
    }

    method Create(sub: Submission, inputs: seq<Artefact>) returns (r: CreateOutcome)
      modifies this
      ensures r == OutcomeOfCreate(old(Contents()), sub, inputs)
      ensures Contents() == WithSubmission(old(Contents()), sub, inputs)
    {
      for i := 0 to |inputs|
        invariant Contents() == old(Contents())
        invariant FirstClash(Contents(), inputs) == FirstClash(Contents(), inputs[i..])
      {
        var a := inputs[i];
        if a.verified {
          var clash := FindClash(a);
          if clash {
            return Collision(a.kind);
          }
        }
        assert inputs[i..][1..] == inputs[i + 1..];
      }
      if HasSubmission(Contents(), sub.id) { return DuplicateKey; }
      submissions := submissions + [sub];
      for i := 0 to |inputs|
        invariant submissions == old(submissions) + [sub]
        invariant artefacts == old(artefacts) + inputs[..i]
      {
        artefacts := artefacts + [inputs[i]];
      }
      assert inputs[..|inputs|] == inputs;
      return Created;
    }

    method FindClash(a: Artefact) returns (found: bool)
      ensures found <==> HasClash(Contents(), a)
    {
      for i := 0 to |artefacts|
        invariant forall j :: 0 <= j < i ==> !Clashes(a, artefacts[j])
      {
        if Clashes(a, artefacts[i]) { return true; }
      }
      return false;
    }
  }

  // The submit handler.

  datatype InsuranceInput = InsuranceInput(expiry: Time, ok: bool)

  datatype SubmitRequest = SubmitRequest(
    account: Id, licenceHash: string, licenceExpiry: Time, licenceOk: bool, bikeHash: string, bikeOk: bool,
    mpesaHash: string, mpesaOk: bool, insurance: Option<InsuranceInput>, submissionId: Id, firstArtefactId: Id)

  function EarliestFuture(dates: seq<Time>, now: Time): Option<Time> {
    if dates == [] then None
    else
      var rest := EarliestFuture(dates[1..], now);
      if dates[0] > now && (rest.None? || dates[0] <= rest.value) then Some(dates[0]) else rest
  }

  /** The minimum of the dates still to come, if there are any. */
  lemma {:induction false} EarliestFutureIsLeast(dates: seq<Time>, now: Time)
    ensures EarliestFuture(dates, now).None? ==> forall d :: d in dates ==> d <= now
    ensures EarliestFuture(dates, now).Some? ==>
      var e := EarliestFuture(dates, now).value; e in dates && e > now && forall d :: d in dates && d > now ==> e <= d
  {
    if dates != [] {
      EarliestFutureIsLeast(dates[1..], now);
      assert dates == [dates[0]] + dates[1..];
      assert forall d :: d in dates <==> d == dates[0] || d in dates[1..];
      assert dates[0] in dates;
    }
  }

  function Expiries(q: SubmitRequest): seq<Time> {
    [q.licenceExpiry] + if q.insurance.Some? then [q.insurance.value.expiry] else []
  }

  function AllVerified(q: SubmitRequest): bool {
    q.licenceOk && q.bikeOk && q.mpesaOk && (q.insurance.None? || q.insurance.value.ok)
  }

  function ClassOf(q: SubmitRequest): Cust.RiderClass {
    if !AllVerified(q) then Cust.NoRider
    else if q.insurance.Some? then Cust.RiderTier2
    else Cust.RiderTier1
  }

  function SubmissionOf(q: SubmitRequest, now: Time): Submission {
    Submission(q.submissionId, q.account, AllVerified(q), ClassOf(q), now, EarliestFuture(Expiries(q), now))
  }

  function ArtefactsOf(q: SubmitRequest): seq<Artefact> {
    var n := q.firstArtefactId;
    [Artefact(n, q.submissionId, q.account, DrivingLicence, q.licenceOk, Some(q.licenceHash), None, None,
        Some(q.licenceExpiry)),
     Artefact(n + 1, q.submissionId, q.account, MotorbikeRegistration, q.bikeOk, None, Some(q.bikeHash), None, None),
     Artefact(n + 2, q.submissionId, q.account, MpesaOwnershipProbe, q.mpesaOk, None, None, Some(q.mpesaHash), None)]
    + if q.insurance.None? then []
      else
        [Artefact(n + 3, q.submissionId, q.account, Insurance, q.insurance.value.ok, None, None, None,
            Some(q.insurance.value.expiry))]
  }

  datatype State = State(customers: Cust.Store, kyc: Store)

  function Submitted(s: State, q: SubmitRequest, now: Time): State {
    if q.account !in s.customers.accounts then s
    else if !OutcomeOfCreate(s.kyc, SubmissionOf(q, now), ArtefactsOf(q)).Created? then s
    else State(
      if AllVerified(q) then Cust.WithRiderClass(s.customers, q.account, ClassOf(q)) else s.customers,
      WithSubmission(s.kyc, SubmissionOf(q, now), ArtefactsOf(q)))
  }

  class RiderKycRoutes {
    const customersRepo: Cust.CustomersRepo
    const riderKycRepo: RiderKycRepo

    constructor (customersRepo: Cust.CustomersRepo, riderKycRepo: RiderKycRepo)
      ensures this.customersRepo == customersRepo && this.riderKycRepo == riderKycRepo
    {
      this.customersRepo, this.riderKycRepo := customersRepo, riderKycRepo;
    }

    function Contents(): State
      reads this, customersRepo, riderKycRepo
    {
      State(customersRepo.Contents(), riderKycRepo.Contents())
    }

    method Submit(q: SubmitRequest, now: Time) returns (reply: Reply)
      modifies customersRepo, riderKycRepo
      ensures Contents() == Submitted(old(Contents()), q, now)
      ensures reply.Ok? <==>
        q.account in old(customersRepo.accounts) &&
            OutcomeOfCreate(old(riderKycRepo.Contents()), SubmissionOf(q, now), ArtefactsOf(q)).Created?
      ensures reply.Ok? ==> reply == Ok(201)
      ensures reply == Error(404, CustomerNotFound) <==> q.account !in old(customersRepo.accounts)
      ensures reply == Error(409, RiderKycCrossAccountCollision) <==>
        q.account in old(customersRepo.accounts) &&
            OutcomeOfCreate(old(riderKycRepo.Contents()), SubmissionOf(q, now), ArtefactsOf(q)).Collision?
    {
      var account := customersRepo.FindById(q.account);
      if account.None? { return Error(404, CustomerNotFound); }
      var allVerified := q.licenceOk && q.bikeOk && q.mpesaOk && (q.insurance.None? || q.insurance.value.ok);
      var n := q.firstArtefactId;
      var artefacts := [
        Artefact(n, q.submissionId, q.account, DrivingLicence, q.licenceOk, Some(q.licenceHash), None, None,
            Some(q.licenceExpiry)),
        Artefact(n + 1, q.submissionId, q.account, MotorbikeRegistration, q.bikeOk, None, Some(q.bikeHash), None, None),
        Artefact(n + 2, q.submissionId, q.account, MpesaOwnershipProbe, q.mpesaOk, None, None,
            Some(q.mpesaHash), None)];
      if q.insurance.Some? {
        artefacts := artefacts + [Artefact(n + 3, q.submissionId, q.account, Insurance, q.insurance.value.ok, None,
            None, None, Some(q.insurance.value.expiry))];
      }
      assert artefacts == ArtefactsOf(q);
      var outcome := riderKycRepo.Create(SubmissionOf(q, now), artefacts);
      match outcome
      case Collision(_) => return Error(409, RiderKycCrossAccountCollision);
      case DuplicateKey => return Error(500, InternalUnspecified);
      case Created =>
        if allVerified {
          var found := customersRepo.SetRiderClass(q.account, ClassOf(q));
        }
        return Ok(201);
    }
  }

  // What every run keeps.

  /** The identity documents that may be verified for one account only. */
  predicate SameDocument(a: Artefact, b: Artefact) {
    && a.kind == b.kind
    && ((a.kind == DrivingLicence && a.licenceHash.Some? && a.licenceHash == b.licenceHash)
        || (a.kind == MotorbikeRegistration && a.bikeHash.Some? && a.bikeHash == b.bikeHash))
  }

  ghost predicate OneOwner(s: Store) {
    forall i, j :: 0 <= i < |s.artefacts| && 0 <= j < |s.artefacts|
      && s.artefacts[i].verified && s.artefacts[j].verified && SameDocument(s.artefacts[i], s.artefacts[j])
      ==> s.artefacts[i].account == s.artefacts[j].account
  }

  predicate Belongs(a: Artefact, sub: Submission) {
    a.submissionId == sub.id
  }

  predicate ExpiresAfter(a: Artefact, t: Time) {
    a.expiry.Some? && a.expiry.value > t
  }

  /** The recorded expiry is the least of the submission's expiries still to come, if there are any. */
  ghost predicate ExpiryAgrees(arts: seq<Artefact>, sub: Submission) {
    && (sub.expiresAt.None? ==> forall j ::
        0 <= j < |arts| && Belongs(arts[j], sub) && arts[j].expiry.Some? ==> arts[j].expiry.value <= sub.submittedAt)
    && (sub.expiresAt.Some? ==>
        && sub.expiresAt.value > sub.submittedAt
        && (exists j :: 0 <= j < |arts| && Belongs(arts[j], sub) && arts[j].expiry == sub.expiresAt)
        && (forall j :: 0 <= j < |arts| && Belongs(arts[j], sub) && ExpiresAfter(arts[j], sub.submittedAt) ==>
            sub.expiresAt.value <= arts[j].expiry.value))
  }

  /** A submission is verified exactly when all its artefacts are, and all of them carry its account. */
  ghost predicate VerdictsAgree(s: Store) {
    && (forall i :: 0 <= i < |s.submissions| ==> VerdictAgrees(s, s.submissions[i]))
    && (forall j :: 0 <= j < |s.artefacts| ==> HasSubmission(s, s.artefacts[j].submissionId))
  }

  ghost predicate VerdictAgrees(s: Store, sub: Submission) {
    && (sub.verified <==> forall j ::
        0 <= j < |s.artefacts| && Belongs(s.artefacts[j], sub) ==> s.artefacts[j].verified)
    && (forall j :: 0 <= j < |s.artefacts| && Belongs(s.artefacts[j], sub) ==> s.artefacts[j].account == sub.account)
    && ExpiryAgrees(s.artefacts, sub)
    && ClassAgrees(s.artefacts, sub)
  }

  /** Which class a submission earns: none unless all of it is verified, the second with insurance, else the first. */
  ghost predicate ClassAgrees(arts: seq<Artefact>, sub: Submission) {
    && (sub.riderClass == Cust.NoRider <==> SomeRejected(arts, sub))
    && (sub.riderClass == Cust.RiderTier2 <==> !SomeRejected(arts, sub) && SomeInsurance(arts, sub))
    && (sub.riderClass == Cust.RiderTier1 <==> !SomeRejected(arts, sub) && !SomeInsurance(arts, sub))
  }

  ghost predicate SomeRejected(arts: seq<Artefact>, sub: Submission) {
    exists j :: 0 <= j < |arts| && Belongs(arts[j], sub) && !arts[j].verified
  }

  ghost predicate SomeInsurance(arts: seq<Artefact>, sub: Submission) {
    exists j :: 0 <= j < |arts| && Belongs(arts[j], sub) && arts[j].kind == Insurance
  }

  /** The class of the account's latest verified submission, if it has one. */
  function LatestClass(subs: seq<Submission>, account: Id): Cust.RiderClass {
    if subs == [] then Cust.NoRider
    else if subs[|subs| - 1].account == account && subs[|subs| - 1].verified then subs[|subs| - 1].riderClass
    else LatestClass(subs[..|subs| - 1], account)
  }

  ghost predicate Inv(s: State) {
    && OneOwner(s.kyc) && VerdictsAgree(s.kyc)
    && (forall i :: 0 <= i < |s.kyc.submissions| ==> s.kyc.submissions[i].account in s.customers.accounts)
    && (forall u :: u in s.customers.accounts ==>
        s.customers.accounts[u].riderClass == LatestClass(s.kyc.submissions, u))
  }

  lemma StoreKeepsOneOwner(s: Store, q: SubmitRequest, now: Time)
    requires OneOwner(s)
    ensures OneOwner(WithSubmission(s, SubmissionOf(q, now), ArtefactsOf(q)))
  {
    var inputs := ArtefactsOf(q);
    if OutcomeOfCreate(s, SubmissionOf(q, now), inputs).Created? {
      FirstClashNone(s, inputs);
      forall i, k | 0 <= i < |s.artefacts| && 0 <= k < |inputs| && s.artefacts[i].verified && inputs[k].verified &&
          SameDocument(s.artefacts[i], inputs[k])
        ensures s.artefacts[i].account == inputs[k].account
      {
        assert inputs[k] in inputs;
        assert !Clashes(inputs[k], s.artefacts[i]);
      }
    }
  }

  lemma StoreKeepsVerdicts(s: Store, q: SubmitRequest, now: Time)
    requires VerdictsAgree(s)
    ensures VerdictsAgree(WithSubmission(s, SubmissionOf(q, now), ArtefactsOf(q)))
  {
    var sub, inputs := SubmissionOf(q, now), ArtefactsOf(q);
    if OutcomeOfCreate(s, sub, inputs).Created? {
      var s' := WithSubmission(s, sub, inputs);
      InputsBelong(q);
      forall i | 0 <= i < |s'.submissions| ensures VerdictAgrees(s', s'.submissions[i]) {
        if i < |s.submissions| {
          OldVerdictStays(s, s.submissions[i], sub, inputs);
        } else {
          NewVerdictAgrees(s, s', q, now);
        }
      }
      forall j | 0 <= j < |s'.artefacts| ensures HasSubmission(s', s'.artefacts[j].submissionId) {
        if j < |s.artefacts| {
          var i :| 0 <= i < |s.submissions| && s.submissions[i].id == s.artefacts[j].submissionId;
          assert s'.submissions[i].id == s'.artefacts[j].submissionId;
        } else {
          assert s'.submissions[|s.submissions|].id == s'.artefacts[j].submissionId;
        }
      }
    }
  }

  lemma OldVerdictStays(s: Store, earlier: Submission, sub: Submission, inputs: seq<Artefact>)
    requires VerdictAgrees(s, earlier) && earlier.id != sub.id
    requires forall k :: 0 <= k < |inputs| ==> Belongs(inputs[k], sub)
    ensures VerdictAgrees(Store(s.submissions + [sub], s.artefacts + inputs), earlier)
  {
    var all := s.artefacts + inputs;
    assert forall j :: 0 <= j < |all| && Belongs(all[j], earlier) ==> j < |s.artefacts|;
    assert forall j :: 0 <= j < |s.artefacts| ==> all[j] == s.artefacts[j];
    if earlier.expiresAt.Some? {
      var j :| 0 <= j < |s.artefacts| && Belongs(s.artefacts[j], earlier) && s.artefacts[j].expiry == earlier.expiresAt;
      assert Belongs(all[j], earlier) && all[j].expiry == earlier.expiresAt;
    }
  }

  lemma InputsFixExpiry(q: SubmitRequest, now: Time)
    ensures ExpiryAgrees(ArtefactsOf(q), SubmissionOf(q, now))
  {
    var inputs, sub := ArtefactsOf(q), SubmissionOf(q, now);
    EarliestFutureIsLeast(Expiries(q), now);
    assert q.licenceExpiry == Expiries(q)[0];
    assert inputs[0].expiry == Some(q.licenceExpiry) && Belongs(inputs[0], sub);
    if q.insurance.Some? {
      assert q.insurance.value.expiry == Expiries(q)[1];
      assert inputs[3].expiry == Some(q.insurance.value.expiry) && Belongs(inputs[3], sub);
    }
    forall j | 0 <= j < |inputs| && inputs[j].expiry.Some? ensures inputs[j].expiry.value in Expiries(q) {}
  }

  lemma VerdictIsTheConjunction(q: SubmitRequest)
    ensures AllVerified(q) <==> forall k :: 0 <= k < |ArtefactsOf(q)| ==> ArtefactsOf(q)[k].verified
  {
    var inputs := ArtefactsOf(q);
    assert inputs[0].verified == q.licenceOk && inputs[1].verified == q.bikeOk && inputs[2].verified == q.mpesaOk;
    assert q.insurance.Some? ==> inputs[3].verified == q.insurance.value.ok;
  }

  /** The one artefact of its kind a request stores, with the verdict, document and expiry of that kind. */
  predicate StoresOne(q: SubmitRequest, kind: Kind, verified: bool, licence: Option<string>, bike: Option<string>,
      mpesa: Option<string>, expiry: Option<Time>)
  {
    exists k :: 0 <= k < |ArtefactsOf(q)| &&
      ArtefactsOf(q)[k] == Artefact(ArtefactsOf(q)[k].id, q.submissionId, q.account, kind, verified, licence, bike,
                                    mpesa, expiry) &&
      forall j :: 0 <= j < |ArtefactsOf(q)| && ArtefactsOf(q)[j].kind == kind ==> j == k
  }

  /** A submission stores one artefact a document, insurance only if there is one, all under distinct identifiers. */
  lemma SubmissionStoresItsDocuments(q: SubmitRequest)
    ensures StoresOne(q, DrivingLicence, q.licenceOk, Some(q.licenceHash), None, None, Some(q.licenceExpiry))
    ensures StoresOne(q, MotorbikeRegistration, q.bikeOk, None, Some(q.bikeHash), None, None)
    ensures StoresOne(q, MpesaOwnershipProbe, q.mpesaOk, None, None, Some(q.mpesaHash), None)
    ensures if q.insurance.Some? then
        StoresOne(q, Insurance, q.insurance.value.ok, None, None, None, Some(q.insurance.value.expiry))
      else forall k :: 0 <= k < |ArtefactsOf(q)| ==> ArtefactsOf(q)[k].kind != Insurance
    ensures |ArtefactsOf(q)| == if q.insurance.Some? then 4 else 3
    ensures forall j, k :: 0 <= j < k < |ArtefactsOf(q)| ==> ArtefactsOf(q)[j].id != ArtefactsOf(q)[k].id
  {
    var a := ArtefactsOf(q);
    assert a[0].kind == DrivingLicence && a[1].kind == MotorbikeRegistration && a[2].kind == MpesaOwnershipProbe;
    assert q.insurance.Some? ==> a[3].kind == Insurance;
  }

  lemma InputsFixClass(q: SubmitRequest, now: Time)
    ensures ClassAgrees(ArtefactsOf(q), SubmissionOf(q, now))
  {
    var inputs, sub := ArtefactsOf(q), SubmissionOf(q, now);
    InputsBelong(q);
    VerdictIsTheConjunction(q);
    if k :| 0 <= k < |inputs| && !inputs[k].verified {
      assert Belongs(inputs[k], sub);
    }
    if q.insurance.Some? {
      assert inputs[3].kind == Insurance && Belongs(inputs[3], sub);
    }
  }

  lemma InputsBelong(q: SubmitRequest)
    ensures forall k :: 0 <= k < |ArtefactsOf(q)| ==>
      var a := ArtefactsOf(q)[k];
      Belongs(a, SubmissionOf(q, 0)) && a.submissionId == q.submissionId && a.account == q.account
  {}

  lemma NewVerdictAgrees(s: Store, s': Store, q: SubmitRequest, now: Time)
    requires VerdictsAgree(s) && !HasSubmission(s, q.submissionId)
    requires s' == Store(s.submissions + [SubmissionOf(q, now)], s.artefacts + ArtefactsOf(q))
    ensures VerdictAgrees(s', SubmissionOf(q, now))
  {
    InputsBelong(q);
    VerdictIsTheConjunction(q);
    InputsFixExpiry(q, now);
    InputsFixClass(q, now);
    SplitVerdict(s, ArtefactsOf(q), SubmissionOf(q, now));
  }

  /** The artefacts of a new submission are the ones stored with it. */
  lemma OnlyInputsBelong(s: Store, inputs: seq<Artefact>, sub: Submission)
    requires VerdictsAgree(s) && !HasSubmission(s, sub.id)
    requires forall k :: 0 <= k < |inputs| ==> Belongs(inputs[k], sub)
    ensures var all, n := s.artefacts + inputs, |s.artefacts|;
      && (forall j :: 0 <= j < |all| && Belongs(all[j], sub) ==> n <= j && all[j] == inputs[j - n])
      && (forall k :: 0 <= k < |inputs| ==> all[n + k] == inputs[k] && Belongs(all[n + k], sub))
  {
    forall j | 0 <= j < |s.artefacts| ensures !Belongs(s.artefacts[j], sub) {
      assert HasSubmission(s, s.artefacts[j].submissionId);
    }
  }

  lemma SplitExpiry(s: Store, inputs: seq<Artefact>, sub: Submission)
    requires VerdictsAgree(s) && !HasSubmission(s, sub.id)
    requires forall k :: 0 <= k < |inputs| ==> Belongs(inputs[k], sub)
    requires ExpiryAgrees(inputs, sub)
    ensures ExpiryAgrees(s.artefacts + inputs, sub)
  {
    var all, n := s.artefacts + inputs, |s.artefacts|;
    OnlyInputsBelong(s, inputs, sub);
    if sub.expiresAt.Some? {
      var k :| 0 <= k < |inputs| && Belongs(inputs[k], sub) && inputs[k].expiry == sub.expiresAt;
      assert Belongs(all[n + k], sub) && all[n + k].expiry == sub.expiresAt;
    }
  }

  lemma SplitClass(s: Store, inputs: seq<Artefact>, sub: Submission)
    requires VerdictsAgree(s) && !HasSubmission(s, sub.id)
    requires forall k :: 0 <= k < |inputs| ==> Belongs(inputs[k], sub)
    requires ClassAgrees(inputs, sub)
    ensures ClassAgrees(s.artefacts + inputs, sub)
  {
    var all, n := s.artefacts + inputs, |s.artefacts|;
    OnlyInputsBelong(s, inputs, sub);
    assert SomeRejected(all, sub) <==> SomeRejected(inputs, sub) by {
      if k :| 0 <= k < |inputs| && Belongs(inputs[k], sub) && !inputs[k].verified {
        assert Belongs(all[n + k], sub) && !all[n + k].verified;
      }
    }
    assert SomeInsurance(all, sub) <==> SomeInsurance(inputs, sub) by {
      if k :| 0 <= k < |inputs| && Belongs(inputs[k], sub) && inputs[k].kind == Insurance {
        assert Belongs(all[n + k], sub) && all[n + k].kind == Insurance;
      }
    }
  }

  lemma SplitVerdict(s: Store, inputs: seq<Artefact>, sub: Submission)
    requires VerdictsAgree(s) && !HasSubmission(s, sub.id)
    requires forall k :: 0 <= k < |inputs| ==> Belongs(inputs[k], sub) && inputs[k].account == sub.account
    requires sub.verified <==> forall k :: 0 <= k < |inputs| ==> inputs[k].verified
    requires ExpiryAgrees(inputs, sub) && ClassAgrees(inputs, sub)
    ensures VerdictAgrees(Store(s.submissions + [sub], s.artefacts + inputs), sub)
  {
    var all, n := s.artefacts + inputs, |s.artefacts|;
    OnlyInputsBelong(s, inputs, sub);
    SplitExpiry(s, inputs, sub);
    SplitClass(s, inputs, sub);
    if !sub.verified {
      var k :| 0 <= k < |inputs| && !inputs[k].verified;
      assert !all[n + k].verified;
    }
  }

  lemma SubmitKeepsInv(s: State, q: SubmitRequest, now: Time)
    requires Inv(s)
    ensures Inv(Submitted(s, q, now))
  {
    StoreKeepsOneOwner(s.kyc, q, now);
    StoreKeepsVerdicts(s.kyc, q, now);
    var subs := s.kyc.submissions;
    assert (subs + [SubmissionOf(q, now)])[..|subs|] == subs;
  }

  /**
   * Any change to the customer store that keeps the accounts and their rider classes, or adds
   * unclassified accounts.
   */
  lemma CustomerChangesKeepInv(s: State, customers: Cust.Store)
    requires Inv(s)
    requires forall u :: u in s.customers.accounts ==>
        u in customers.accounts && customers.accounts[u].riderClass == s.customers.accounts[u].riderClass
    requires forall u :: u in customers.accounts && u !in s.customers.accounts ==>
        customers.accounts[u].riderClass == Cust.NoRider
    ensures Inv(s.(customers := customers))
  {
    forall u | u in customers.accounts && u !in s.customers.accounts
        ensures LatestClass(s.kyc.submissions, u) == Cust.NoRider {
      UnknownHasNoClass(s.kyc.submissions, u);
    }
  }

  lemma {:induction false} UnknownHasNoClass(subs: seq<Submission>, account: Id)
    requires forall i :: 0 <= i < |subs| ==> subs[i].account != account
    ensures LatestClass(subs, account) == Cust.NoRider
  {
    if subs != [] {
      UnknownHasNoClass(subs[..|subs| - 1], account);
    }
  }

  /**
   * What may happen to this part of the service: a submission, a new customer, a tier or state
   * change, a phone swap.
   */
  datatype Request =
    | Submit(q: SubmitRequest)
    | CreateCustomer(uuid: Id, hash: string, encrypted: seq<bv8>, appId: Id, assignmentId: Id)
    | ChangeState(uuid: Id, fromStates: set<Cust.AccountState>, toState: Cust.AccountState)
    | SetTier(uuid: Id, tier: Cust.Tier, reason: string, assignmentId: Id)
    | SwapPhone(uuid: Id, hash: string, encrypted: seq<bv8>, cooldownUntil: Time)

  function Handled(s: State, r: Request, now: Time): State {
    match r
    case Submit(q) => Submitted(s, q, now)
    case CreateCustomer(uuid, hash, encrypted, appId, assignmentId) =>
      s.(customers := Cust.WithCustomer(s.customers, uuid, hash, encrypted, appId, assignmentId, now))
    case ChangeState(uuid, fromStates, toState) =>
      s.(customers := Cust.WithState(s.customers, uuid, fromStates, toState))
    case SetTier(uuid, tier, reason, assignmentId) =>
      s.(customers := Cust.WithTier(s.customers, uuid, tier, reason, assignmentId, now))
    case SwapPhone(uuid, hash, encrypted, cooldownUntil) =>
      s.(customers := Cust.WithPhone(s.customers, uuid, hash, encrypted, cooldownUntil, now))
  }

  lemma HandledKeepsInv(s: State, r: Request, now: Time)
    requires Inv(s)
    ensures Inv(Handled(s, r, now))
  {
    if r.Submit? {
      SubmitKeepsInv(s, r.q, now);
    } else {
      CustomerChangesKeepInv(s, Handled(s, r, now).customers);
    }
  }

  function Run(rs: seq<(Request, Time)>): State {
    if rs == [] then State(Cust.EMPTY, Store([], []))
    else Handled(Run(rs[..|rs| - 1]), rs[|rs| - 1].0, rs[|rs| - 1].1)
  }

  /**
   * In every run all verified artefacts with one licence or bike hash belong to one
   * account, a submission is verified exactly when all its artefacts are and expires with
   * the first of them still to expire, and every account's rider class is that of its
   * latest verified submission.
   */
  lemma {:induction false} RunKeepsInv(rs: seq<(Request, Time)>)
    ensures Inv(Run(rs))
  {
    if rs != [] {
      var s := Run(rs[..|rs| - 1]);
      RunKeepsInv(rs[..|rs| - 1]);
      HandledKeepsInv(s, rs[|rs| - 1].0, rs[|rs| - 1].1);
    }
  }

  /**
   * A collision, and any other refusal, leaves everything as it was; the refusal happens exactly
   * when another account holds a verified document.
   */
  lemma CollisionChangesNothing(s: State, q: SubmitRequest, now: Time)
    ensures OutcomeOfCreate(s.kyc, SubmissionOf(q, now), ArtefactsOf(q)).Collision? ==> Submitted(s, q, now) == s
    ensures OutcomeOfCreate(s.kyc, SubmissionOf(q, now), ArtefactsOf(q)).Collision? <==>
      (q.licenceOk && exists i :: 0 <= i < |s.kyc.artefacts| && HoldsLicence(s.kyc.artefacts[i], q)) ||
      (q.bikeOk && exists i :: 0 <= i < |s.kyc.artefacts| && HoldsBike(s.kyc.artefacts[i], q))
  {
    var inputs := ArtefactsOf(q);
    FirstClashNone(s.kyc, inputs);
    assert inputs[0] in inputs && inputs[1] in inputs;
    assert HasClash(s.kyc, inputs[0]) <==> q.licenceOk && exists i ::
        0 <= i < |s.kyc.artefacts| && HoldsLicence(s.kyc.artefacts[i], q);
    assert HasClash(s.kyc, inputs[1]) <==> q.bikeOk && exists i ::
        0 <= i < |s.kyc.artefacts| && HoldsBike(s.kyc.artefacts[i], q);
    forall a | a in inputs && HasClash(s.kyc, a) ensures a == inputs[0] || a == inputs[1] {}
  }

  predicate HoldsLicence(a: Artefact, q: SubmitRequest) {
    a.verified && a.kind == DrivingLicence && a.licenceHash == Some(q.licenceHash) && a.account != q.account
  }

  predicate HoldsBike(a: Artefact, q: SubmitRequest) {
    a.verified && a.kind == MotorbikeRegistration && a.bikeHash == Some(q.bikeHash) && a.account != q.account
  }
}
