/** What every interleaving keeps: one action per token, one token per challenge. */
module InterleavingSafety {
  import opened Domain
  import opened AuthChallenges
  import opened StepUpTokens
  import opened StepupRequests
  import opened Interleaving

  // Challenges and the processes that answer them.

  ghost predicate ChallengesKeyed(s: State) {
    forall id :: id in s.challenges ==> s.challenges[id].info.id == id && Creatable(s.challenges[id].info)
  }

  /**
   * A process holds a row that was pending when read; the row's fixed part never changes and its
   * count never shrinks.
   */
  predicate HoldsEarlierRead(s: State, c: Challenge) {
    && c.info.id in s.challenges
    && c.info == s.challenges[c.info.id].info
    && c.attemptsUsed <= s.challenges[c.info.id].attemptsUsed
    && c.status == Pending
  }

  predicate LimitApplied(c: Challenge, next: AttemptUpdate) {
    match next.status
    case Pending => next.increment && c.attemptsUsed + 1 < MAX_OTP_ATTEMPTS
    case Failed => next.increment && c.attemptsUsed + 1 >= MAX_OTP_ATTEMPTS
    case Consumed => next.increment
    case Expired => !next.increment
  }

  ghost predicate ProcsHoldReads(s: State) {
    forall p :: p in s.procs ==>
      match s.procs[p]
      case Recording(c, next, mint) =>
        HoldsEarlierRead(s, c) && LimitApplied(c, next) &&
            (mint ==> next.status == Consumed && BoundToOperation(c.info))
      case Minting(info) =>
        info.id in s.challenges && info == s.challenges[info.id].info && s.challenges[info.id].status != Pending &&
            BoundToOperation(info)
      case _ => true
  }

  // Tokens.

  /** A stored token: minted for its challenge, which is no longer pending. */
  predicate MintedFrom(s: State, jti: Id)
    requires jti in s.tokens
  {
    && jti in s.challenges
    && s.challenges[jti].status != Pending
    && BoundToOperation(s.challenges[jti].info)
    && s.tokens[jti].info == Minted(s.challenges[jti].info, s.tokens[jti].info.iat)
  }

  ghost predicate TokensMinted(s: State) {
    forall jti :: jti in s.tokens ==> MintedFrom(s, jti)
  }

  ghost predicate ReturnedOnce(s: State) {
    && (forall p :: p in s.procs && s.procs[p].Returned? ==> s.procs[p].jti in s.tokens)
    && (forall p, q ::
        p in s.procs && q in s.procs && s.procs[p].Returned? && s.procs[q].Returned? &&
        s.procs[p].jti == s.procs[q].jti ==>
          p == q)
  }

  ghost predicate IssueInv(s: State) {
    ChallengesKeyed(s) && ProcsHoldReads(s) && TokensMinted(s) && ReturnedOnce(s)
  }

  /**
   * What every endpoint decides from a row it read: only pending rows are written, the limit is
   * applied, only bound rows mint.
   */
  predicate SoundDecision(c: Challenge, d: Decision) {
    && (!d.Refuse? ==> c.status == Pending && LimitApplied(c, d.next))
    && (d.RecordAndProceed? ==> d.next.status == Consumed)
  }

  lemma DecisionsAreSound(c: Challenge, response: FactorResponse, matches: bool, now: Time)
    requires Creatable(c.info)
    ensures SoundDecision(c, StepupDecision(Some(c), response, now))
    ensures StepupDecision(Some(c), response, now).RecordAndProceed? ==> BoundToOperation(c.info)
    ensures SoundDecision(c, LoginDecision(Some(c), response, now))
    ensures SoundDecision(c, ConfirmDecision(c, matches, now))
  {}

  lemma ReadKeepsIssueInv(s: State, pid: Pid, cid: Id, d: Decision, mints: bool)
    requires IssueInv(s) && cid in s.challenges && SoundDecision(s.challenges[cid], d)
    requires d.RecordAndProceed? && mints ==> BoundToOperation(s.challenges[cid].info)
    ensures IssueInv(Started(s, pid, AfterRead(s, cid, d, mints)))
  {}

  lemma ReadEventKeepsIssueInv(s: State, e: Event)
    requires IssueInv(s) && (e.ReadForStepup? || e.ReadForLogin? || e.ReadForConfirm?)
    ensures IssueInv(Apply(s, e))
  {
    if e.cid in s.challenges {
      var c := s.challenges[e.cid];
      match e
      case ReadForStepup(pid, cid, response, now) =>
        DecisionsAreSound(c, response, false, now);
        ReadKeepsIssueInv(s, pid, cid, StepupDecision(Some(c), response, now), true);
      case ReadForLogin(pid, cid, response, now) =>
        DecisionsAreSound(c, response, false, now);
        ReadKeepsIssueInv(s, pid, cid, LoginDecision(Some(c), response, now), false);
      case ReadForConfirm(pid, cid, matches, now) =>
        DecisionsAreSound(c, TextCode(matches), matches, now);
        ReadKeepsIssueInv(s, pid, cid, ConfirmDecision(c, matches, now), false);
    } else {
      OtherStepsKeepIssueInv(s, Apply(s, e));
    }
  }

  lemma RecordKeepsProcs(s: State, pid: Pid)
    requires ChallengesKeyed(s) && ProcsHoldReads(s)
    ensures ChallengesKeyed(Recorded(s, pid)) && ProcsHoldReads(Recorded(s, pid))
  {}

  lemma RecordKeepsIssueInv(s: State, pid: Pid)
    requires IssueInv(s)
    ensures IssueInv(Recorded(s, pid))
  {
    RecordKeepsProcs(s, pid);
    var s' := Recorded(s, pid);
    forall j | j in s'.tokens ensures MintedFrom(s', j) {
      assert MintedFrom(s, j);
    }
  }

  lemma MintKeepsIssueInv(s: State, pid: Pid, now: Time)
    requires IssueInv(s)
    ensures IssueInv(TokenStored(s, pid, now))
  {}

  lemma CreateKeepsIssueInv(s: State, info: ChallengeInfo, now: Time)
    requires IssueInv(s) && Creatable(info)
    ensures IssueInv(s.(challenges := WithChallenge(s.challenges, info, now)))
  {}

  /** Steps that answer no challenge and store no token. */
  lemma OtherStepsKeepIssueInv(s: State, s': State)
    requires IssueInv(s) && s'.challenges == s.challenges
    requires s'.tokens.Keys == s.tokens.Keys && forall j :: j in s.tokens ==> s'.tokens[j].info == s.tokens[j].info
    requires forall p :: p in s'.procs ==>
      (p in s.procs && s'.procs[p] == s.procs[p]) || s'.procs[p].ReadToken? || s'.procs[p].Authorised? ||
          s'.procs[p].Finished?
    ensures IssueInv(s')
  {
    forall j | j in s'.tokens ensures MintedFrom(s', j) {
      assert MintedFrom(s, j);
    }
  }

  lemma SpendingKeepsIssueInv(s: State, pid: Pid, jti: Id, accountId: Id, use: Use, now: Time)
    requires IssueInv(s)
    ensures IssueInv(Spending(s, pid, jti, accountId, use, now))
  {
    OtherStepsKeepIssueInv(s, Spending(s, pid, jti, accountId, use, now));
  }

  lemma SpendEventKeepsIssueInv(s: State, e: Event)
    requires IssueInv(s) && (e.SpendForChange? || e.SpendForSigning? || e.ReadForSigning?)
    ensures IssueInv(Apply(s, e))
  {
    match e
    case SpendForChange(pid, jti, accountId, now) =>
      if pid !in s.procs { SpendingKeepsIssueInv(s, pid, jti, accountId, ForChange, now); }
    case SpendForSigning(pid, now) =>
      if pid in s.procs && s.procs[pid].ReadToken? {
        SpendingKeepsIssueInv(s, pid, s.procs[pid].jti, s.procs[pid].accountId, ForSigning, now);
      }
    case ReadForSigning(pid, jti, accountId) =>
      OtherStepsKeepIssueInv(s, Apply(s, e));
  }

  /** A process ends. */
  lemma FinishingKeepsIssueInv(s: State, s': State, pid: Pid)
    requires IssueInv(s) && s'.challenges == s.challenges && s'.tokens == s.tokens
    requires s'.procs == s.procs || s'.procs == s.procs[pid := Finished]
    ensures IssueInv(s')
  {
    OtherStepsKeepIssueInv(s, s');
  }

  lemma WriteEventKeepsIssueInv(s: State, e: Event)
    requires IssueInv(s) && (e.WriteChange? || e.WriteSigning? || e.Abandon?)
    ensures IssueInv(Apply(s, e))
  {
    FinishingKeepsIssueInv(s, Apply(s, e), e.pid);
  }

  lemma RowEventKeepsIssueInv(s: State, e: Event)
    requires IssueInv(s) && (e.SignWithoutStepup? || e.CompleteChange? || e.CancelChange? || e.Inspect?)
    ensures IssueInv(Apply(s, e))
  {
    OtherStepsKeepIssueInv(s, Apply(s, e));
  }

  lemma ApplyKeepsIssueInv(s: State, e: Event)
    requires IssueInv(s)
    ensures IssueInv(Apply(s, e))
  {
    if e.CreateChallenge? {
      if Creatable(e.info) { CreateKeepsIssueInv(s, e.info, e.now); }
    } else if e.ReadForStepup? || e.ReadForLogin? || e.ReadForConfirm? {
      ReadEventKeepsIssueInv(s, e);
    } else if e.Record? {
      RecordKeepsIssueInv(s, e.pid);
    } else if e.Mint? {
      MintKeepsIssueInv(s, e.pid, e.now);
    } else if e.SpendForChange? || e.SpendForSigning? || e.ReadForSigning? {
      SpendEventKeepsIssueInv(s, e);
    } else if e.WriteChange? || e.WriteSigning? || e.Abandon? {
      WriteEventKeepsIssueInv(s, e);
    } else {
      RowEventKeepsIssueInv(s, e);
    }
  }

  lemma {:induction false} RunKeepsIssueInv(es: seq<Event>)
    ensures IssueInv(Run(es))
  {
    if es != [] {
      RunKeepsIssueInv(es[..|es| - 1]);
      ApplyKeepsIssueInv(Run(es[..|es| - 1]), es[|es| - 1]);
    }
  }

  /**
   * In every interleaving a stored token's challenge is no longer pending, the token
   * copies the challenge's audience, kind, risk tier, factor and agent claims, it has
   * exactly one subject, an operator exactly when the kind is `operator.*`, and at most
   * one request ever returns it.
   */
  lemma OneTokenPerChallenge(es: seq<Event>, jti: Id)
    requires jti in Run(es).tokens
    ensures var s, t := Run(es), Run(es).tokens[jti].info;
      && jti in s.challenges && s.challenges[jti].status != Pending
      && var c := s.challenges[jti].info;
      && t.jti == jti == t.challengeId
      && Some(t.audience) == c.operationAudience && Some(t.operationKind) == c.intendedOperation
      && Some(t.riskTier) == c.riskTier && t.factor == c.factor
      && t.accountUuid == c.accountId && t.operatorUserId == c.operatorUserId
      && t.actor == c.actor && t.initiatedBy == c.initiatedBy
      && LivesByRisk(t)
      && (t.accountUuid.None? <==> t.operatorUserId.Some?)
      && (t.operatorUserId.Some? <==> IsOperatorKind(t.operationKind))
    ensures forall p, q ::
        p in Run(es).procs && q in Run(es).procs &&
        Run(es).procs[p] == Returned(jti) == Run(es).procs[q] ==>
          p == q
  {
    RunKeepsIssueInv(es);
    assert MintedFrom(Run(es), jti);
  }

  // Spending.

  /**
   * Where a spent token's identifier can sit: in a change row, in a signing row, or in the hand of
   * a process about to write one.
   */
  datatype Holder = InChange(id: Id) | InSigning(id: Id) | InHand(pid: Pid)

  function HeldBy(s: State, h: Holder): Option<Id> {
    match h
    case InChange(id) => if id in s.changes.rows then Some(s.changes.rows[id].info.authorisingStepupJti) else None
    case InSigning(id) => if id in s.signings then s.signings[id].stepUpJti else None
    case InHand(pid) => if pid in s.procs && s.procs[pid].Authorised? then Some(s.procs[pid].jti) else None
  }

  ghost predicate SpendInv(s: State) {
    && (forall h :: HeldBy(s, h).Some? ==> Spent(s.tokens, HeldBy(s, h).value))
    && (forall h1, h2 :: HeldBy(s, h1).Some? && HeldBy(s, h1) == HeldBy(s, h2) ==> h1 == h2)
  }

  /** A step that leaves every holder's content and every spent token alone. */
  lemma SameHolders(s: State, s': State)
    requires SpendInv(s)
    requires forall h :: HeldBy(s', h).Some? ==> HeldBy(s', h) == HeldBy(s, h)
    requires forall j :: Spent(s.tokens, j) ==> Spent(s'.tokens, j)
    ensures SpendInv(s')
  {}

  lemma SpendingKeepsSpendInv(s: State, pid: Pid, jti: Id, accountId: Id, use: Use, now: Time)
    requires SpendInv(s)
    requires pid in s.procs ==> !s.procs[pid].Authorised?
    ensures SpendInv(Spending(s, pid, jti, accountId, use, now))
  {
    var s' := Spending(s, pid, jti, accountId, use, now);
    forall h ensures HeldBy(s', h) == if h == InHand(pid) && Unspent(s.tokens, jti) then Some(jti) else HeldBy(s, h) {}
    assert forall j :: Spent(s.tokens, j) ==> Spent(s'.tokens, j);
  }

  /** The process hands its token over to the row it writes (or drops it, when the insert throws). */
  lemma HandOver(s: State, s': State, pid: Pid, row: Holder)
    requires SpendInv(s) && s'.tokens == s.tokens
    requires row != InHand(pid) && HeldBy(s', InHand(pid)).None?
    requires HeldBy(s', row) in {HeldBy(s, row), HeldBy(s, InHand(pid))}
    requires forall h :: h != row && h != InHand(pid) ==> HeldBy(s', h) == HeldBy(s, h)
    ensures SpendInv(s')
  {
    forall h1, h2 | HeldBy(s', h1).Some? && HeldBy(s', h1) == HeldBy(s', h2) ensures h1 == h2 {
      if HeldBy(s', row) != HeldBy(s, row) {
        var o1 := if h1 == row then InHand(pid) else h1;
        var o2 := if h2 == row then InHand(pid) else h2;
        assert HeldBy(s, o1) == HeldBy(s, o2) == HeldBy(s', h1);
      }
    }
  }

  lemma ApplyKeepsSpendInv(s: State, e: Event)
    requires SpendInv(s)
    ensures SpendInv(Apply(s, e))
  {
    var s' := Apply(s, e);
    match e
    case SpendForChange(pid, jti, accountId, now) =>
      if pid !in s.procs { SpendingKeepsSpendInv(s, pid, jti, accountId, ForChange, now); }
    case SpendForSigning(pid, now) =>
      if pid in s.procs && s.procs[pid].ReadToken? {
        SpendingKeepsSpendInv(s, pid, s.procs[pid].jti, s.procs[pid].accountId, ForSigning, now);
      }
    case WriteChange(pid, info, state, now) =>
      if s' != s { HandOver(s, s', pid, InChange(info.id)); }
    case WriteSigning(pid, row) =>
      if s' != s { HandOver(s, s', pid, InSigning(row.jti)); }
    case CompleteChange(id, now) => ChangeStepsKeepSpendInv(s, s');
    case CancelChange(id, reason, now) => ChangeStepsKeepSpendInv(s, s');
    case SignWithoutStepup(row) => SameHolders(s, s');
    case Abandon(pid) => SameHolders(s, s');
    case _ => QuietStepsKeepSpendInv(s, e);
  }

  lemma ChangeStepsKeepSpendInv(s: State, s': State)
    requires SpendInv(s)
    requires s'.tokens == s.tokens && s'.signings == s.signings && s'.procs == s.procs
    requires s'.changes.rows.Keys == s.changes.rows.Keys
    requires forall id :: id in s.changes.rows ==> s'.changes.rows[id].info == s.changes.rows[id].info
    ensures SpendInv(s')
  {
    SameHolders(s, s');
  }

  /** Steps that answer challenges and issue tokens: no row is written and nothing is spent. */
  lemma QuietStepsKeepSpendInv(s: State, e: Event)
    requires SpendInv(s)
    requires e.CreateChallenge? || e.ReadForStepup? || e.ReadForLogin? || e.ReadForConfirm? || e.Record? || e.Mint? ||
        e.ReadForSigning? || e.Inspect?
    ensures SpendInv(Apply(s, e))
  {
    var s' := Apply(s, e);
    assert s'.changes == s.changes && s'.signings == s.signings;
    forall p | p in s'.procs && s'.procs[p].Authorised? ensures p in s.procs && s.procs[p] == s'.procs[p] {}
    forall h ensures HeldBy(s', h).Some? ==> HeldBy(s', h) == HeldBy(s, h) {}
    SameHolders(s, s');
  }

  lemma {:induction false} RunKeepsSpendInv(es: seq<Event>)
    ensures SpendInv(Run(es))
  {
    if es != [] {
      RunKeepsSpendInv(es[..|es| - 1]);
      ApplyKeepsSpendInv(Run(es[..|es| - 1]), es[|es| - 1]);
    }
  }

  /**
   * In every interleaving a step-up token authorises at most one action overall: over
   * all phone-change rows and all signing rows together the non-null token identifiers
   * are pairwise distinct, and each names a token that has been marked consumed.
   */
  lemma OneActionPerToken(es: seq<Event>)
    ensures var s := Run(es);
      && (forall a, b :: a in s.changes.rows && b in s.changes.rows && a != b ==>
          s.changes.rows[a].info.authorisingStepupJti != s.changes.rows[b].info.authorisingStepupJti)
      && (forall a, b ::
          a in s.signings && b in s.signings && s.signings[a].stepUpJti.Some? &&
          s.signings[a].stepUpJti == s.signings[b].stepUpJti ==>
            a == b)
      && (forall a, b :: a in s.changes.rows && b in s.signings ==>
          Some(s.changes.rows[a].info.authorisingStepupJti) != s.signings[b].stepUpJti)
      && (forall a :: a in s.changes.rows ==> Spent(s.tokens, s.changes.rows[a].info.authorisingStepupJti))
      && (forall a :: a in s.signings && s.signings[a].stepUpJti.Some? ==>
          Spent(s.tokens, s.signings[a].stepUpJti.value))
  {
    RunKeepsSpendInv(es);
    var s := Run(es);
    forall a, b | a in s.changes.rows && b in s.changes.rows &&
        s.changes.rows[a].info.authorisingStepupJti == s.changes.rows[b].info.authorisingStepupJti
      ensures a == b
    {
      assert HeldBy(s, InChange(a)) == HeldBy(s, InChange(b));
    }
    forall a, b | a in s.signings && b in s.signings && s.signings[a].stepUpJti.Some? &&
        s.signings[a].stepUpJti == s.signings[b].stepUpJti
      ensures a == b
    {
      assert HeldBy(s, InSigning(a)) == HeldBy(s, InSigning(b));
    }
    forall a, b | a in s.changes.rows && b in s.signings
      ensures Some(s.changes.rows[a].info.authorisingStepupJti) != s.signings[b].stepUpJti
    {
      assert HeldBy(s, InChange(a)).Some? && HeldBy(s, InSigning(b)) == s.signings[b].stepUpJti;
    }
    forall a | a in s.changes.rows ensures Spent(s.tokens, s.changes.rows[a].info.authorisingStepupJti) {
      assert HeldBy(s, InChange(a)).Some?;
    }
    forall a | a in s.signings && s.signings[a].stepUpJti.Some? ensures Spent(s.tokens, s.signings[a].stepUpJti.value) {
      assert HeldBy(s, InSigning(a)).Some?;
    }
  }

  // Whose token it is.

  predicate BelongsTo(t: Tokens, jti: Id, accountId: Id) {
    jti in t && t[jti].info.accountUuid == Some(accountId)
  }

  predicate HolderOwns(s: State, p: Proc) {
    match p
    case ReadToken(jti, accountId) => BelongsTo(s.tokens, jti, accountId)
    case Authorised(jti, accountId, use) =>
      BelongsTo(s.tokens, jti, accountId) && (use == ForChange ==> IsForPhoneChange(s.tokens[jti].info, accountId))
    case _ => true
  }

  ghost predicate ChangesOwned(s: State) {
    forall id :: id in s.changes.rows ==>
      var i := s.changes.rows[id].info;
      i.authorisingStepupJti in s.tokens && IsForPhoneChange(s.tokens[i.authorisingStepupJti].info, i.accountId)
  }

  ghost predicate SigningsOwned(s: State) {
    forall id :: id in s.signings && s.signings[id].stepUpJti.Some? ==>
        BelongsTo(s.tokens, s.signings[id].stepUpJti.value, s.signings[id].accountUuid)
  }

  ghost predicate OwnerInv(s: State) {
    ChangesOwned(s) && SigningsOwned(s) && forall p :: p in s.procs ==> HolderOwns(s, s.procs[p])
  }

  /** Token rows stay what they were created with. */
  lemma TokenInfosStay(s: State, e: Event)
    ensures forall j :: j in s.tokens ==> j in Apply(s, e).tokens && Apply(s, e).tokens[j].info == s.tokens[j].info
  {}

  lemma ProcessesOwn(s: State, e: Event, p: Pid)
    requires OwnerInv(s) && p in Apply(s, e).procs
    ensures HolderOwns(Apply(s, e), Apply(s, e).procs[p])
  {
    TokenInfosStay(s, e);
    assert p in s.procs ==> HolderOwns(s, s.procs[p]);
  }

  /** A row that was not there before was written by the process that holds its token. */
  lemma NewChangesAreHeld(s: State, e: Event, id: Id)
    requires id in Apply(s, e).changes.rows
    ensures var i := Apply(s, e).changes.rows[id].info;
      if id in s.changes.rows then i == s.changes.rows[id].info
      else exists p :: p in s.procs && s.procs[p] == Authorised(i.authorisingStepupJti, i.accountId, ForChange)
  {}

  lemma NewSigningsAreHeld(s: State, e: Event, id: Id)
    requires id in Apply(s, e).signings && Apply(s, e).signings[id].stepUpJti.Some?
    ensures var g := Apply(s, e).signings[id];
      if id in s.signings then g == s.signings[id]
      else exists p :: p in s.procs && s.procs[p] == Authorised(g.stepUpJti.value, g.accountUuid, ForSigning)
  {}

  lemma ApplyKeepsChangesOwned(s: State, e: Event)
    requires OwnerInv(s)
    ensures ChangesOwned(Apply(s, e))
  {
    TokenInfosStay(s, e);
    forall id | id in Apply(s, e).changes.rows
      ensures var i, t := Apply(s, e).changes.rows[id].info, Apply(s, e).tokens;
        i.authorisingStepupJti in t && IsForPhoneChange(t[i.authorisingStepupJti].info, i.accountId)
    {
      NewChangesAreHeld(s, e, id);
      var i := Apply(s, e).changes.rows[id].info;
      if id !in s.changes.rows {
        var p :| p in s.procs && s.procs[p] == Authorised(i.authorisingStepupJti, i.accountId, ForChange);
        assert HolderOwns(s, s.procs[p]);
      }
    }
  }

  lemma ApplyKeepsSigningsOwned(s: State, e: Event)
    requires OwnerInv(s)
    ensures SigningsOwned(Apply(s, e))
  {
    TokenInfosStay(s, e);
    forall id | id in Apply(s, e).signings && Apply(s, e).signings[id].stepUpJti.Some?
      ensures var g := Apply(s, e).signings[id]; BelongsTo(Apply(s, e).tokens, g.stepUpJti.value, g.accountUuid)
    {
      NewSigningsAreHeld(s, e, id);
      var g := Apply(s, e).signings[id];
      if id !in s.signings {
        var p :| p in s.procs && s.procs[p] == Authorised(g.stepUpJti.value, g.accountUuid, ForSigning);
        assert HolderOwns(s, s.procs[p]);
      }
    }
  }

  lemma ApplyKeepsOwnerInv(s: State, e: Event)
    requires OwnerInv(s)
    ensures OwnerInv(Apply(s, e))
  {
    ApplyKeepsChangesOwned(s, e);
    ApplyKeepsSigningsOwned(s, e);
    forall p | p in Apply(s, e).procs ensures HolderOwns(Apply(s, e), Apply(s, e).procs[p]) {
      ProcessesOwn(s, e, p);
    }
  }

  lemma {:induction false} RunKeepsOwnerInv(es: seq<Event>)
    ensures OwnerInv(Run(es))
  {
    if es != [] {
      RunKeepsOwnerInv(es[..|es| - 1]);
      ApplyKeepsOwnerInv(Run(es[..|es| - 1]), es[|es| - 1]);
    }
  }

  /**
   * In every interleaving the token named by a change or a signing is one of that row's account,
   * and a change's is one for phone changes.
   */
  lemma {:induction false} TokensBelongToTheirRows(es: seq<Event>)
    ensures var s := Run(es);
      && (forall id :: id in s.changes.rows ==>
          var i := s.changes.rows[id].info;
          && i.authorisingStepupJti in s.tokens
          && var t := s.tokens[i.authorisingStepupJti].info;
          t.accountUuid == Some(i.accountId) && t.operationKind == "identiti.phone_change" &&
              t.audience == "https://api.id.identiti.co.ke")
      && (forall id :: id in s.signings && s.signings[id].stepUpJti.Some? ==>
          s.signings[id].stepUpJti.value in s.tokens &&
              s.tokens[s.signings[id].stepUpJti.value].info.accountUuid == Some(s.signings[id].accountUuid))
  {
    RunKeepsOwnerInv(es);
  }

  // Validation.

  function PidOf(e: Event): Option<Pid> {
    match e
    case ReadForStepup(pid, _, _, _) => Some(pid)
    case ReadForLogin(pid, _, _, _) => Some(pid)
    case ReadForConfirm(pid, _, _, _) => Some(pid)
    case Record(pid) => Some(pid)
    case Mint(pid, _) => Some(pid)
    case SpendForChange(pid, _, _, _) => Some(pid)
    case ReadForSigning(pid, _, _) => Some(pid)
    case SpendForSigning(pid, _) => Some(pid)
    case WriteChange(pid, _, _, _) => Some(pid)
    case WriteSigning(pid, _) => Some(pid)
    case Abandon(pid) => Some(pid)
    case Inspect(pid) => Some(pid)
    case _ => None
  }

  function WithoutInspections(es: seq<Event>): seq<Event> {
    if es == [] then []
    else WithoutInspections(es[..|es| - 1]) + if es[|es| - 1].Inspect? then [] else [es[|es| - 1]]
  }

  /** The processes of `validators` serve validate requests and nothing else does. */
  ghost predicate ValidatorsOnlyInspect(es: seq<Event>, validators: set<Pid>) {
    forall e :: e in es ==> (e.Inspect? <==> PidOf(e).Some? && PidOf(e).value in validators)
  }

  /** The same rows, and the same processes apart from the validators. */
  ghost predicate SameApartFrom(s: State, t: State, validators: set<Pid>) {
    && s.challenges == t.challenges && s.tokens == t.tokens && s.changes == t.changes && s.signings == t.signings
    && s.calls == t.calls
    && forall p :: p !in validators ==> (p in s.procs <==> p in t.procs) && (p in s.procs ==> s.procs[p] == t.procs[p])
  }

  lemma StepsKeepApart(s: State, t: State, e: Event, validators: set<Pid>)
    requires SameApartFrom(s, t, validators) && !e.Inspect? && (PidOf(e).Some? ==> PidOf(e).value !in validators)
    ensures SameApartFrom(Apply(s, e), Apply(t, e), validators)
  {}

  /** Taking every validate request out of a run changes no row and no other request. */
  lemma {:induction false} ValidationChangesNothing(es: seq<Event>, validators: set<Pid>)
    requires ValidatorsOnlyInspect(es, validators)
    ensures SameApartFrom(Run(WithoutInspections(es)), Run(es), validators)
  {
    if es != [] {
      var e, init := es[|es| - 1], es[..|es| - 1];
      var rest := WithoutInspections(init);
      assert e in es && forall x :: x in init ==> x in es;
      ValidationChangesNothing(init, validators);
      if e.Inspect? {
        assert rest + [] == rest;
      } else {
        RunExtends(rest, e);
        StepsKeepApart(Run(rest), Run(init), e, validators);
      }
    }
  }
}
