/**
 * Concurrent requests, one repository call at a time.
 *
 * Each request is a process; between two of its repository calls any other process may
 * run. What a process has read it keeps, stale or not. A run is any sequence of events,
 * and an event that is not enabled does nothing, so "every event sequence" is "every
 * interleaving". Row locks and conditional updates are the atomic functions of the
 * stores: `WithAttempt` (SELECT … FOR UPDATE), `WithConsumed` (WHERE consumed_at IS
 * NULL) and the primary-key inserts.
 */
module Interleaving {
  import opened Domain
  import opened AuthChallenges
  import opened StepUpTokens
  import opened StepupRequests
  import PC = PhoneChanges

  type Pid = nat

  /** What a token is spent for. */
  datatype Use = ForChange | ForSigning

  datatype Proc =
    | Recording(read: Challenge, next: AttemptUpdate, mint: bool) // has read a challenge; recordAttempt is next
    | Minting(info: ChallengeInfo)                                // recorded a success; the token row is next
    | Returned(jti: Id)                                           // stored its token and replied with it
    | ReadToken(jti: Id, accountId: Id)                           // signing: found the token row; markConsumed is next
    | Authorised(jti: Id, accountId: Id, use: Use)                // consumed it; the action's row is next
    | Finished                                                    // any other reply

  datatype State = State(
    challenges: Challenges, tokens: Tokens, changes: PC.Table, signings: Signings, procs: map<Pid, Proc>,
    calls: seq<(Id, AttemptUpdate)>) // every recordAttempt call, in the order the row lock served them

  const INIT := State(map[], map[], PC.Table([], map[]), map[], map[], [])

  datatype Event =
    | CreateChallenge(info: ChallengeInfo, now: Time)
    | ReadForStepup(pid: Pid, cid: Id, response: FactorResponse, now: Time)
    | ReadForLogin(pid: Pid, cid: Id, response: FactorResponse, now: Time)
    | ReadForConfirm(pid: Pid, cid: Id, matches: bool, now: Time)
    | Record(pid: Pid)
    | Mint(pid: Pid, now: Time)
    | SpendForChange(pid: Pid, jti: Id, accountId: Id, now: Time)
    | ReadForSigning(pid: Pid, jti: Id, accountId: Id)
    | SpendForSigning(pid: Pid, now: Time)
    | WriteChange(pid: Pid, change: PC.ChangeInfo, state: PC.ChangeState, now: Time)
    | WriteSigning(pid: Pid, row: Signing)
    | SignWithoutStepup(row: Signing)
    | CompleteChange(id: Id, now: Time)
    | CancelChange(id: Id, reason: PC.CancelReason, now: Time)
    | Inspect(pid: Pid)
    | Abandon(pid: Pid)

  function Lookup(s: State, cid: Id): Option<Challenge> {
    if cid in s.challenges then Some(s.challenges[cid]) else None
  }

  /** The process left by a read on which the endpoint took decision `d`. */
  function AfterRead(s: State, cid: Id, d: Decision, mints: bool): Proc {
    if cid !in s.challenges then Finished
    else match d
      case Refuse(_) => Finished
      case RecordAndRefuse(next, _) => Recording(s.challenges[cid], next, false)
      case RecordAndProceed(next) => Recording(s.challenges[cid], next, mints)
  }

  function Started(s: State, pid: Pid, p: Proc): State {
    if pid in s.procs then s else s.(procs := s.procs[pid := p])
  }

  function Recorded(s: State, pid: Pid): State {
    if pid in s.procs && s.procs[pid].Recording? then
      var p := s.procs[pid];
      s.(challenges := WithAttempt(s.challenges, p.read.info.id, p.next),
         calls := s.calls + [(p.read.info.id, p.next)],
         procs := s.procs[pid := if p.mint then Minting(p.read.info) else Finished])
    else s
  }

  predicate Mintable(i: ChallengeInfo) {
    i.intendedOperation.Some? && i.operationAudience.Some? && i.riskTier.Some?
  }

  /** The insert either stores the only token of the challenge, whose JWT is returned, or throws. */
  function TokenStored(s: State, pid: Pid, now: Time): State {
    if pid in s.procs && s.procs[pid].Minting? && Mintable(s.procs[pid].info) then
      var info := s.procs[pid].info;
      s.(tokens := WithToken(s.tokens, Minted(info, now)),
         procs := s.procs[pid := if info.id in s.tokens then Finished else Returned(info.id)])
    else s
  }

  function Spending(s: State, pid: Pid, jti: Id, accountId: Id, use: Use, now: Time): State {
    s.(tokens := WithConsumed(s.tokens, jti, now),
       procs := s.procs[pid := if Unspent(s.tokens, jti) then Authorised(jti, accountId, use) else Finished])
  }

  predicate IsForPhoneChange(t: TokenInfo, accountId: Id) {
    t.accountUuid == Some(accountId) && t.operationKind == PHONE_CHANGE_OPERATION_KIND &&
        t.audience == IDENTITI_AUDIENCE
  }

  /** A signed token repeats its row, so the verifier accepts it for a phone change only if the row is one for it. */
  predicate Presented(s: State, jti: Id, accountId: Id) {
    jti in s.tokens ==> IsForPhoneChange(s.tokens[jti].info, accountId)
  }

  function ChangeWritten(s: State, pid: Pid, info: PC.ChangeInfo, state: PC.ChangeState, now: Time): State {
    if pid in s.procs && s.procs[pid] == Authorised(info.authorisingStepupJti, info.accountId, ForChange) then
      s.(changes := PC.WithChange(s.changes, info, state, now), procs := s.procs[pid := Finished])
    else s
  }

  function SigningWritten(s: State, pid: Pid, row: Signing): State {
    if row.stepUpJti.Some? && pid in s.procs &&
        s.procs[pid] == Authorised(row.stepUpJti.value, row.accountUuid, ForSigning) then
      s.(signings := WithSigning(s.signings, row), procs := s.procs[pid := Finished])
    else s
  }

  function Apply(s: State, e: Event): State {
    match e
    case CreateChallenge(info, now) =>
      if Creatable(info) then s.(challenges := WithChallenge(s.challenges, info, now)) else s
    case ReadForStepup(pid, cid, response, now) =>
      Started(s, pid, AfterRead(s, cid, StepupDecision(Lookup(s, cid), response, now), true))
    case ReadForLogin(pid, cid, response, now) =>
      Started(s, pid, AfterRead(s, cid, LoginDecision(Lookup(s, cid), response, now), false))
    case ReadForConfirm(pid, cid, matches, now) =>
      if cid in s.challenges then
        Started(s, pid, AfterRead(s, cid, ConfirmDecision(s.challenges[cid], matches, now), false))
      else s
    case Record(pid) => Recorded(s, pid)
    case Mint(pid, now) => TokenStored(s, pid, now)
    case SpendForChange(pid, jti, accountId, now) =>
      if pid in s.procs || !Presented(s, jti, accountId) then s else Spending(s, pid, jti, accountId, ForChange, now)
    case ReadForSigning(pid, jti, accountId) =>
      Started(s, pid, if jti in s.tokens && s.tokens[jti].info.accountUuid == Some(accountId) then
          ReadToken(jti, accountId) else Finished)
    case SpendForSigning(pid, now) =>
      if pid in s.procs && s.procs[pid].ReadToken? then
        Spending(s, pid, s.procs[pid].jti, s.procs[pid].accountId, ForSigning, now)
      else s
    case WriteChange(pid, info, state, now) => ChangeWritten(s, pid, info, state, now)
    case WriteSigning(pid, row) => SigningWritten(s, pid, row)
    case SignWithoutStepup(row) =>
      if row.stepUpJti.None? then s.(signings := WithSigning(s.signings, row)) else s
    case CompleteChange(id, now) => s.(changes := PC.WithCompleted(s.changes, id, now))
    case CancelChange(id, reason, now) => s.(changes := PC.WithCancelled(s.changes, id, reason, now))
    case Inspect(pid) => Started(s, pid, Finished)
    case Abandon(pid) => if pid in s.procs && !s.procs[pid].Returned? then s.(procs := s.procs[pid := Finished]) else s
  }

  function Run(es: seq<Event>): State {
    if es == [] then INIT else Apply(Run(es[..|es| - 1]), es[|es| - 1])
  }

  lemma RunExtends(es: seq<Event>, e: Event)
    ensures Run(es + [e]) == Apply(Run(es), e)
  {
    assert (es + [e])[..|es|] == es;
  }
}
