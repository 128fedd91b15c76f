/**
 * Phone changes, one repository call at a time. Initiate and confirm read the cooldown
 * and the active change first and write later; nothing locks an account in between. What
 * the atomic handlers keep is therefore kept for an account exactly as long as at most one
 * of its phone-change requests is in flight.
 *
 * A run is any sequence of steps with clock readings that do not decrease; a step that is
 * not enabled does nothing. The token gate and the comparison of the one-time code are
 * the business of other modules: here they may go either way.
 */
module PhoneInterleaving {
  import opened Domain
  import PC = PhoneChanges
  import Cust = Customers
  import PhoneCooldown
  import opened RailPhoneChanges

  type Pid = nat

  /** The number a request is about to bind, and the instant it took for the change. */
  datatype Binding = Binding(account: Id, hash: string, sealed: seq<bv8>, at: Time)

  datatype Proc =
    | Gated(account: Id)                          // found the account out of cooldown; findActiveForAccount is next
    | Superseding(account: Id, id: Id)            // found an active change; cancel is next
    | Drafting(account: Id, at: Time)             // took the time of the change; create is next
    | Answering(account: Id, info: PC.ChangeInfo) // read an awaiting change; the answer is next
    | Swapping(binding: Binding, completes: Option<Id>) // swapPhone is next
    | Completing(account: Id, id: Id, at: Time)   // has swapped; complete is next
    | Cancelling(account: Id, id: Id, reason: PC.CancelReason)
    | Finished

  datatype Swap = Swap(account: Id, at: Time)

  /** `swaps`: the swaps that took effect, in that order, with the instant their event carries. */
  datatype State = State(customers: Cust.Store, changes: PC.Table, swaps: seq<Swap>, procs: map<Pid, Proc>)

  const INIT := State(Cust.EMPTY, PC.Table([], map[]), [], map[])

  datatype Verdict = Right | Wrong | LastWrong | Unusable(reason: PC.CancelReason)

  datatype Event =
    | NewCustomer(uuid: Id, hash: string, sealed: seq<bv8>, appId: Id, assignmentId: Id)
    | StartInitiate(pid: Pid, account: Id)
    | FindActive(pid: Pid)
    | Supersede(pid: Pid)
    | CreateAtOnce(pid: Pid, info: PC.ChangeInfo)
    | CreateAwaiting(pid: Pid, info: PC.ChangeInfo)
    | StartConfirm(pid: Pid, account: Id, id: Id)
    | Answer(pid: Pid, verdict: Verdict)
    | SwapPhone(pid: Pid)
    | Complete(pid: Pid)
    | Cancel(pid: Pid)

  function Set(s: State, pid: Pid, p: Proc): State {
    s.(procs := s.procs[pid := p])
  }

  predicate At(s: State, pid: Pid) {
    pid in s.procs
  }

  /** getPhoneRecord and the cooldown gate. */
  function Initiated(s: State, account: Id, now: Time): Proc {
    if PastCooldown(s.customers.accounts, account, now) then Gated(account) else Finished
  }

  /** The change row as confirm finds it. */
  function Confirmed(s: State, account: Id, id: Id, now: Time): Proc {
    if id !in s.changes.rows || s.changes.rows[id].info.accountId != account then Finished
    else if s.changes.rows[id].state != PC.CooldownActive then Finished
    else if s.changes.rows[id].info.expiresAt <= now then Cancelling(account, id, PC.AwaitingConfirmationExpired)
    else Answering(account, s.changes.rows[id].info)
  }

  /** The clock is read again for the change itself, once there is nothing left to supersede. */
  function Found(s: State, account: Id, now: Time): Proc {
    var existing := PC.FindActive(s.changes, account);
    if existing.Some? then Superseding(account, existing.value) else Drafting(account, now)
  }

  function Answered(info: PC.ChangeInfo, verdict: Verdict, now: Time): Proc {
    match verdict
    case Right => Swapping(Binding(info.accountId, info.newPhoneHash, info.newPhoneEncrypted, now), Some(info.id))
    case Wrong => Finished
    case LastWrong => Cancelling(info.accountId, info.id, PC.MaxOtpAttempts)
    case Unusable(reason) => Cancelling(info.accountId, info.id, reason)
  }

  /** `swapPhone`: no effect when the account is gone or another one holds the number. */
  function Swapped(s: State, pid: Pid, b: Binding, completes: Option<Id>, now: Time): State {
    var cooldownUntil := PhoneCooldown.ComputeCooldownUntil(b.at, false);
    match Cust.SwapOutcome(s.customers, b.account, b.hash)
    case Done =>
      Set(s, pid, if completes.Some? then Completing(b.account, completes.value, b.at) else Finished).(
        customers := Cust.WithPhone(s.customers, b.account, b.hash, b.sealed, cooldownUntil, now),
        swaps := s.swaps + [Swap(b.account, b.at)])
    case NotFound =>
      Set(s, pid, if completes.Some? then Cancelling(b.account, completes.value, PC.PhoneRecordVanished) else Finished)
    case _ => Set(s, pid, Finished)
  }

  function Apply(s: State, e: Event, now: Time): State {
    match e
    case NewCustomer(uuid, hash, sealed, appId, assignmentId) =>
      s.(customers := Cust.WithCustomer(s.customers, uuid, hash, sealed, appId, assignmentId, now))
    case StartInitiate(pid, account) => if At(s, pid) then s else Set(s, pid, Initiated(s, account, now))
    case StartConfirm(pid, account, id) => if At(s, pid) then s else Set(s, pid, Confirmed(s, account, id, now))
    case FindActive(pid) =>
      if At(s, pid) && s.procs[pid].Gated? then Set(s, pid, Found(s, s.procs[pid].account, now)) else s
    case Supersede(pid) =>
      if At(s, pid) && s.procs[pid].Superseding? then
        Set(s, pid, Drafting(s.procs[pid].account, now)).(
          changes := PC.WithCancelled(s.changes, s.procs[pid].id, PC.SupersededByNewInitiate, now))
      else s
    case CreateAtOnce(pid, info) =>
      if At(s, pid) && s.procs[pid].Drafting? && info.accountId == s.procs[pid].account then
        var b := Binding(info.accountId, info.newPhoneHash, info.newPhoneEncrypted, s.procs[pid].at);
        Set(s, pid, if info.id in s.changes.rows then Finished else Swapping(b, None)).(
          changes := PC.WithChange(s.changes, info, PC.Completed, now))
      else s
    case CreateAwaiting(pid, info) =>
      if At(s, pid) && s.procs[pid].Drafting? && info.accountId == s.procs[pid].account then
        Set(s, pid, Finished).(changes := PC.WithChange(s.changes, info, PC.CooldownActive, now))
      else s
    case Answer(pid, verdict) =>
      if At(s, pid) && s.procs[pid].Answering? then Set(s, pid, Answered(s.procs[pid].info, verdict, now)) else s
    case SwapPhone(pid) =>
      if At(s, pid) && s.procs[pid].Swapping? then Swapped(s, pid, s.procs[pid].binding, s.procs[pid].completes, now)
      else s
    case Complete(pid) =>
      if At(s, pid) && s.procs[pid].Completing? then
        Set(s, pid, Finished).(changes := PC.WithCompleted(s.changes, s.procs[pid].id, s.procs[pid].at))
      else s
    case Cancel(pid) =>
      if At(s, pid) && s.procs[pid].Cancelling? then
        Set(s, pid, Finished).(changes := PC.WithCancelled(s.changes, s.procs[pid].id, s.procs[pid].reason, now))
      else s
  }

  datatype Tick = Tick(event: Event, now: Time)

  function After(ticks: seq<Tick>): State {
    if ticks == [] then INIT else Apply(After(ticks[..|ticks| - 1]), ticks[|ticks| - 1].event, ticks[|ticks| - 1].now)
  }

  ghost predicate Timed(ticks: seq<Tick>) {
    forall i, j :: 0 <= i < j < |ticks| ==> ticks[i].now <= ticks[j].now
  }

  /** The account whose number a request in flight may change. */
  function AccountOf(p: Proc): Option<Id> {
    match p
    case Swapping(b, _) => Some(b.account)
    case Finished => None
    case _ => Some(p.account)
  }

  /** At most one phone-change request of the account is in flight. */
  ghost predicate OneInFlight(s: State, account: Id) {
    forall p, q :: p in s.procs && q in s.procs && AccountOf(s.procs[p]) == Some(account) == AccountOf(s.procs[q]) ==>
        p == q
  }

  ghost predicate OneAtATime(ticks: seq<Tick>, account: Id) {
    OneInFlight(After(ticks), account) && (ticks != [] ==> OneAtATime(ticks[..|ticks| - 1], account))
  }

  // What holds whatever is in flight: a request only touches rows of its own account.

  predicate RowOf(p: PC.Table, id: Id, account: Id) {
    id in p.rows && p.rows[id].info.accountId == account
  }

  predicate Keeps(p: PC.Table, q: Proc) {
    match q
    case Superseding(account, id) => RowOf(p, id, account)
    case Answering(account, info) => info.accountId == account && RowOf(p, info.id, account)
    case Swapping(b, completes) => completes.Some? ==> RowOf(p, completes.value, b.account)
    case Completing(account, id, _) => RowOf(p, id, account)
    case Cancelling(account, id, _) => RowOf(p, id, account)
    case _ => true
  }

  /** No handler creates a row as `initiated`. */
  predicate NoneInitiated(p: PC.Table) {
    forall id :: id in p.rows ==> p.rows[id].state != PC.Initiated
  }

  ghost predicate OwnRows(s: State) {
    && PC.WellFormed(s.changes) && NoneInitiated(s.changes)
    && forall p :: p in s.procs ==> Keeps(s.changes, s.procs[p])
  }

  lemma ApplyKeepsOwnRows(s: State, e: Event, now: Time)
    requires OwnRows(s)
    ensures OwnRows(Apply(s, e, now))
  {
    var s' := Apply(s, e, now);
    RowsStay(s, e, now);
    forall p | p in s'.procs ensures Keeps(s'.changes, s'.procs[p]) {
      ProcessesKeepRows(s, e, now, p);
    }
  }

  /** Rows are never dropped, and what is fixed at creation stays. */
  ghost predicate RowsStayed(p: PC.Table, p': PC.Table) {
    forall id :: id in p.rows ==>
        && id in p'.rows
        && p'.rows[id].info == p.rows[id].info
        && p'.rows[id].initiatedAt == p.rows[id].initiatedAt
  }

  lemma RowsStay(s: State, e: Event, now: Time)
    requires PC.WellFormed(s.changes) && NoneInitiated(s.changes)
    ensures RowsStayed(s.changes, Apply(s, e, now).changes)
    ensures PC.WellFormed(Apply(s, e, now).changes) && NoneInitiated(Apply(s, e, now).changes)
  {}

  lemma KeepsStays(p: PC.Table, p': PC.Table, q: Proc)
    requires RowsStayed(p, p') && Keeps(p, q)
    ensures Keeps(p', q)
  {}

  lemma ProcessesKeepRows(s: State, e: Event, now: Time, p: Pid)
    requires OwnRows(s) && p in Apply(s, e, now).procs
    ensures Keeps(Apply(s, e, now).changes, Apply(s, e, now).procs[p])
  {
    var s' := Apply(s, e, now);
    RowsStay(s, e, now);
    if p in s.procs && s'.procs[p] == s.procs[p] {
      KeepsStays(s.changes, s'.changes, s.procs[p]);
    } else if p in s.procs {
      assert Keeps(s.changes, s.procs[p]);
    }
  }

  // What holds for an account with one request in flight at a time.

  ghost predicate OnlyActive(p: PC.Table, account: Id, id: Id) {
    forall x :: IsActive(p, x) && p.rows[x].info.accountId == account ==> x == id
  }

  predicate ActiveOf(p: PC.Table, account: Id, id: Id) {
    IsActive(p, id) && p.rows[id].info.accountId == account
  }

  /** Any two swaps of the account are at least 24 hours apart. */
  ghost predicate DayApart(s: State, account: Id) {
    forall i, j :: 0 <= i < j < |s.swaps| && s.swaps[i].account == s.swaps[j].account == account ==>
        s.swaps[i].at + DAY_MS <= s.swaps[j].at
  }

  ghost predicate OneActive(s: State, account: Id) {
    forall x, y :: ActiveOf(s.changes, account, x) && ActiveOf(s.changes, account, y) ==> x == y
  }

  /** The swaps of the account so far are a day apart, and its cooldown runs for a day from each. */
  ghost predicate SwapsOk(s: State, account: Id) {
    && DayApart(s, account)
    && (forall i :: 0 <= i < |s.swaps| && s.swaps[i].account == account ==> Covered(s.customers.accounts, s.swaps[i]))
  }

  predicate Covered(accounts: map<Id, Cust.Account>, w: Swap) {
    w.account in accounts && accounts[w.account].cooldownUntil.Some? &&
        w.at + DAY_MS <= accounts[w.account].cooldownUntil.value
  }

  ghost predicate ProcOk(s: State, account: Id, q: Proc, now: Time) {
    var accounts := s.customers.accounts;
    match q
    case Gated(_) => PastCooldown(accounts, account, now)
    case Superseding(_, id) => PastCooldown(accounts, account, now) && OnlyActive(s.changes, account, id)
    case Drafting(_, at) => PastCooldown(accounts, account, at) && at <= now && NoneActive(s.changes, account)
    case Answering(_, info) => PastCooldown(accounts, account, now) && OnlyActive(s.changes, account, info.id)
    case Swapping(b, completes) =>
      && PastCooldown(accounts, account, b.at) && b.at <= now
      && (if completes.Some? then OnlyActive(s.changes, account, completes.value) else NoneActive(s.changes, account))
    case Completing(_, id, _) => OnlyActive(s.changes, account, id)
    case _ => true
  }

  ghost predicate BeingCompleted(s: State, account: Id) {
    exists p :: p in s.procs && s.procs[p].Completing? && s.procs[p].account == account
  }

  ghost predicate RowsActiveOk(s: State, account: Id, now: Time) {
    && OneActive(s, account)
    && (forall id :: ActiveOf(s.changes, account, id) ==>
        s.changes.rows[id].initiatedAt <= now &&
            (BeingCompleted(s, account) || PastCooldown(s.customers.accounts, account, s.changes.rows[id].initiatedAt)))
  }

  ghost predicate AccountInv(s: State, account: Id, now: Time) {
    && SwapsOk(s, account) && RowsActiveOk(s, account, now)
    && forall p :: p in s.procs && AccountOf(s.procs[p]) == Some(account) ==> ProcOk(s, account, s.procs[p], now)
  }

  lemma LaterKeepsAccountInv(s: State, account: Id, before: Time, now: Time)
    requires AccountInv(s, account, before) && before <= now
    ensures AccountInv(s, account, now)
  {
    forall p | p in s.procs && AccountOf(s.procs[p]) == Some(account) ensures ProcOk(s, account, s.procs[p], now) {
      assert ProcOk(s, account, s.procs[p], before);
    }
  }

  // Steps that do not concern the account.

  predicate Concerns(s: State, e: Event, account: Id) {
    match e
    case NewCustomer(_, _, _, _, _) => false
    case StartInitiate(_, a) => a == account
    case StartConfirm(_, a, _) => a == account
    case _ => e.pid in s.procs && AccountOf(s.procs[e.pid]) == Some(account)
  }

  ghost predicate RowsUntouched(p: PC.Table, p': PC.Table, account: Id) {
    && (forall id :: RowOf(p, id, account) <==> RowOf(p', id, account))
    && (forall id :: RowOf(p, id, account) ==> p'.rows[id] == p.rows[id])
  }

  ghost predicate ProcessesUntouched(procs: map<Pid, Proc>, procs': map<Pid, Proc>, account: Id) {
    && (forall p :: p in procs' && AccountOf(procs'[p]) == Some(account) ==> p in procs && procs[p] == procs'[p])
    && (forall p :: p in procs && AccountOf(procs[p]) == Some(account) ==> p in procs' && procs'[p] == procs[p])
  }

  ghost predicate SwapsUntouched(s: State, s': State, account: Id) {
    && (account in s.customers.accounts ==>
        && account in s'.customers.accounts
        && s'.customers.accounts[account].cooldownUntil == s.customers.accounts[account].cooldownUntil)
    && (s'.swaps == s.swaps || exists w: Swap :: s'.swaps == s.swaps + [w] && w.account != account)
  }

  /** Rows, cooldown and swaps of the account, and its requests, are as they were. */
  ghost predicate Untouched(s: State, s': State, account: Id) {
    && RowsUntouched(s.changes, s'.changes, account)
    && ProcessesUntouched(s.procs, s'.procs, account)
    && SwapsUntouched(s, s', account)
  }

  /** A step writes at most one row, one account and one process, none of them of the account. */
  lemma OtherStepsKeepRows(s: State, e: Event, account: Id, now: Time)
    requires OwnRows(s) && !Concerns(s, e, account)
    ensures RowsUntouched(s.changes, Apply(s, e, now).changes, account)
  {
    if !e.NewCustomer? && e.pid in s.procs {
      assert Keeps(s.changes, s.procs[e.pid]);
    }
  }

  lemma OtherStepsKeepProcesses(s: State, e: Event, account: Id, now: Time)
    requires OwnRows(s) && !Concerns(s, e, account)
    ensures ProcessesUntouched(s.procs, Apply(s, e, now).procs, account)
  {
    if !e.NewCustomer? && e.pid in s.procs {
      assert Keeps(s.changes, s.procs[e.pid]);
    }
  }

  lemma OtherStepsDoNotTouch(s: State, e: Event, account: Id, now: Time)
    requires OwnRows(s) && !Concerns(s, e, account)
    ensures Untouched(s, Apply(s, e, now), account)
  {
    OtherStepsKeepRows(s, e, account, now);
    OtherStepsKeepProcesses(s, e, account, now);
    assert SwapsUntouched(s, Apply(s, e, now), account);
  }

  lemma UntouchedKeepsAccountInv(s: State, s': State, account: Id, now: Time)
    requires AccountInv(s, account, now) && Untouched(s, s', account)
    ensures AccountInv(s', account, now)
  {
    assert forall id :: ActiveOf(s'.changes, account, id) ==>
        RowOf(s.changes, id, account) && ActiveOf(s.changes, account, id);
    assert SwapsOk(s', account) by {
      assert forall i :: 0 <= i < |s'.swaps| && s'.swaps[i].account == account ==>
          i < |s.swaps| && s'.swaps[i] == s.swaps[i];
      forall i | 0 <= i < |s'.swaps| && s'.swaps[i].account == account
          ensures Covered(s'.customers.accounts, s'.swaps[i]) {
        assert Covered(s.customers.accounts, s.swaps[i]);
      }
    }
    forall p | p in s'.procs && AccountOf(s'.procs[p]) == Some(account) ensures ProcOk(s', account, s'.procs[p], now) {
      assert ProcOk(s, account, s.procs[p], now);
      assert forall id :: ActiveOf(s'.changes, account, id) ==> ActiveOf(s.changes, account, id);
    }
    if BeingCompleted(s, account) {
      var p :| p in s.procs && s.procs[p].Completing? && s.procs[p].account == account;
      assert AccountOf(s.procs[p]) == Some(account) && s'.procs[p] == s.procs[p];
    }
  }

  // Steps of the account's only request.

  /** Of the account's requests only `pid` is in flight. */
  ghost predicate OnlyMine(s: State, account: Id, pid: Pid) {
    forall p :: p in s.procs && AccountOf(s.procs[p]) == Some(account) ==> p == pid
  }

  /** An active change found while no other request is in flight is past the cooldown. */
  lemma StartedProcOk(s: State, pid: Pid, q: Proc, account: Id, now: Time)
    requires OwnRows(s) && AccountInv(s, account, now) && pid !in s.procs && OneInFlight(Set(s, pid, q), account)
    requires q == Initiated(s, account, now) || exists id :: q == Confirmed(s, account, id, now)
    requires AccountOf(q) == Some(account)
    ensures ProcOk(s, account, q, now)
  {
    var s' := Set(s, pid, q);
    assert s'.procs[pid] == q;
    forall p | p in s.procs ensures AccountOf(s.procs[p]) != Some(account) {
      assert s'.procs[p] == s.procs[p];
    }
    assert !BeingCompleted(s, account);
    if q.Answering? {
      assert ActiveOf(s.changes, account, q.info.id);
    }
  }

  /** A request starts: it reads, and writes nothing. */
  lemma StartKeepsAccountInv(s: State, pid: Pid, q: Proc, account: Id, now: Time)
    requires AccountInv(s, account, now) && pid !in s.procs
    requires AccountOf(q) == Some(account) ==> ProcOk(s, account, q, now)
    ensures AccountInv(Set(s, pid, q), account, now)
  {
    var s' := Set(s, pid, q);
    assert BeingCompleted(s, account) ==> BeingCompleted(s', account) by {
      if p :| p in s.procs && s.procs[p].Completing? && s.procs[p].account == account {
        assert s'.procs[p] == s.procs[p];
      }
    }
    forall p | p in s'.procs && AccountOf(s'.procs[p]) == Some(account) ensures ProcOk(s', account, s'.procs[p], now) {
      assert ProcOk(s, account, s'.procs[p], now);
    }
  }

  lemma FindKeepsAccountInv(s: State, pid: Pid, account: Id, now: Time)
    requires OwnRows(s) && AccountInv(s, account, now) && pid in s.procs && s.procs[pid] == Gated(account) &&
        OnlyMine(s, account, pid)
    ensures AccountInv(Set(s, pid, Found(s, account, now)), account, now)
  {
    var existing, s' := PC.FindActive(s.changes, account), Set(s, pid, Found(s, account, now));
    assert ProcOk(s, account, s.procs[pid], now);
    if existing.Some? {
      assert ActiveOf(s.changes, account, existing.value);
    } else {
      forall id | IsActive(s.changes, id) ensures s.changes.rows[id].info.accountId != account {
        assert id in s.changes.order && !PC.IsActiveFor(s.changes, id, account);
      }
      assert NoneActive(s'.changes, account);
    }
    assert ActiveShrinks(s.changes, s'.changes);
    assert ProcOk(s', account, s'.procs[pid], now);
    ShrinkKeepsAccountInv(s, s', pid, account, now);
  }

  lemma AnswerKeepsAccountInv(s: State, pid: Pid, info: PC.ChangeInfo, verdict: Verdict, account: Id, now: Time)
    requires OwnRows(s) && AccountInv(s, account, now) && pid in s.procs && s.procs[pid] == Answering(account, info) &&
        OnlyMine(s, account, pid)
    ensures AccountInv(Set(s, pid, Answered(info, verdict, now)), account, now)
  {
    assert Keeps(s.changes, s.procs[pid]) && ProcOk(s, account, s.procs[pid], now);
  }

  /** Rows of the table only leave the set of active ones. */
  lemma ShrinkKeepsAccountInv(s: State, s': State, pid: Pid, account: Id, now: Time)
    requires AccountInv(s, account, now) && OnlyMine(s, account, pid) && pid in s.procs && !s.procs[pid].Completing?
    requires s'.customers == s.customers && s'.swaps == s.swaps && ActiveShrinks(s.changes, s'.changes)
    requires pid in s'.procs && s' == s.(changes := s'.changes, procs := s.procs[pid := s'.procs[pid]])
    requires AccountOf(s'.procs[pid]) == Some(account) ==> ProcOk(s', account, s'.procs[pid], now)
    ensures AccountInv(s', account, now)
  {
    assert forall id :: ActiveOf(s'.changes, account, id) ==>
        ActiveOf(s.changes, account, id) && s'.changes.rows[id] == s.changes.rows[id];
  }

  lemma SupersedeKeepsAccountInv(s: State, pid: Pid, account: Id, now: Time)
    requires OwnRows(s) && AccountInv(s, account, now) && pid in s.procs && s.procs[pid].Superseding? &&
        s.procs[pid].account == account
    requires OnlyMine(s, account, pid)
    ensures AccountInv(Apply(s, Supersede(pid), now), account, now)
  {
    assert ProcOk(s, account, s.procs[pid], now);
    CancelTouchesActive(s.changes, s.procs[pid].id, PC.SupersededByNewInitiate, now);
    ShrinkKeepsAccountInv(s, Apply(s, Supersede(pid), now), pid, account, now);
  }

  lemma CancelKeepsAccountInv(s: State, pid: Pid, account: Id, now: Time)
    requires OwnRows(s) && AccountInv(s, account, now) && pid in s.procs && s.procs[pid].Cancelling? &&
        s.procs[pid].account == account
    requires OnlyMine(s, account, pid)
    ensures AccountInv(Apply(s, Cancel(pid), now), account, now)
  {
    CancelTouchesActive(s.changes, s.procs[pid].id, s.procs[pid].reason, now);
    ShrinkKeepsAccountInv(s, Apply(s, Cancel(pid), now), pid, account, now);
  }

  lemma CreateAtOnceKeepsAccountInv(s: State, pid: Pid, info: PC.ChangeInfo, account: Id, now: Time)
    requires OwnRows(s) && AccountInv(s, account, now) && pid in s.procs && s.procs[pid].Drafting? &&
        s.procs[pid].account == account
    requires OnlyMine(s, account, pid)
    ensures AccountInv(Apply(s, CreateAtOnce(pid, info), now), account, now)
  {
    var s' := Apply(s, CreateAtOnce(pid, info), now);
    assert ProcOk(s, account, s.procs[pid], now);
    if s' != s {
      assert ActiveShrinks(s.changes, s'.changes);
      ShrinkKeepsAccountInv(s, s', pid, account, now);
    }
  }

  /** The only active row of the account is the new one. */
  lemma CreateAwaitingKeepsAccountInv(s: State, pid: Pid, info: PC.ChangeInfo, account: Id, now: Time)
    requires OwnRows(s) && AccountInv(s, account, now) && pid in s.procs && s.procs[pid].Drafting? &&
        s.procs[pid].account == account
    requires OnlyMine(s, account, pid)
    ensures AccountInv(Apply(s, CreateAwaiting(pid, info), now), account, now)
  {
    var s' := Apply(s, CreateAwaiting(pid, info), now);
    assert ProcOk(s, account, s.procs[pid], now);
    assert forall id :: ActiveOf(s'.changes, account, id) ==>
        ActiveOf(s.changes, account, id) || (id == info.id && s'.changes.rows[id].initiatedAt == now);
  }

  lemma SwapKeepsAccountInv(s: State, pid: Pid, account: Id, now: Time)
    requires OwnRows(s) && AccountInv(s, account, now) && pid in s.procs && s.procs[pid].Swapping? &&
        s.procs[pid].binding.account == account
    requires OnlyMine(s, account, pid)
    ensures AccountInv(Apply(s, SwapPhone(pid), now), account, now)
  {
    var s', b := Apply(s, SwapPhone(pid), now), s.procs[pid].binding;
    assert ProcOk(s, account, s.procs[pid], now);
    if Cust.SwapOutcome(s.customers, account, b.hash) == Cust.Done {
      assert SwapsOk(s', account) by {
        forall i | 0 <= i < |s.swaps| && s.swaps[i].account == account ensures s.swaps[i].at + DAY_MS <= b.at {
          assert Covered(s.customers.accounts, s.swaps[i]);
        }
      }
      if s.procs[pid].completes.Some? {
        assert s'.procs[pid].Completing? && s'.procs[pid].account == account;
        assert BeingCompleted(s', account);
      }
    }
  }

  lemma CompleteKeepsAccountInv(s: State, pid: Pid, account: Id, now: Time)
    requires OwnRows(s) && AccountInv(s, account, now) && pid in s.procs && s.procs[pid].Completing? &&
        s.procs[pid].account == account
    requires OnlyMine(s, account, pid)
    ensures AccountInv(Apply(s, Complete(pid), now), account, now)
  {
    var s', id := Apply(s, Complete(pid), now), s.procs[pid].id;
    assert ProcOk(s, account, s.procs[pid], now);
    CompleteTouchesOne(s.changes, id, s.procs[pid].at);
    assert s.changes.rows[id].info.accountId == account by {
      assert Keeps(s.changes, s.procs[pid]);
    }
    assert forall x :: !ActiveOf(s'.changes, account, x);
  }

  /** The dispatch over the steps of the account's only request. */
  lemma OwnStepKeepsAccountInv(s: State, e: Event, account: Id, now: Time)
    requires OwnRows(s) && AccountInv(s, account, now) && Concerns(s, e, account)
    requires !e.StartInitiate? && !e.StartConfirm? && OnlyMine(s, account, e.pid)
    ensures AccountInv(Apply(s, e, now), account, now)
  {
    if Apply(s, e, now) != s {
      match e
      case FindActive(pid) => FindKeepsAccountInv(s, pid, account, now);
      case Supersede(pid) => SupersedeKeepsAccountInv(s, pid, account, now);
      case CreateAtOnce(pid, info) => CreateAtOnceKeepsAccountInv(s, pid, info, account, now);
      case CreateAwaiting(pid, info) => CreateAwaitingKeepsAccountInv(s, pid, info, account, now);
      case Answer(pid, verdict) => AnswerKeepsAccountInv(s, pid, s.procs[pid].info, verdict, account, now);
      case SwapPhone(pid) => SwapKeepsAccountInv(s, pid, account, now);
      case Complete(pid) => CompleteKeepsAccountInv(s, pid, account, now);
      case Cancel(pid) => CancelKeepsAccountInv(s, pid, account, now);
    }
  }

  lemma ApplyKeepsAccountInv(s: State, e: Event, account: Id, now: Time)
    requires OwnRows(s) && AccountInv(s, account, now)
    requires OneInFlight(s, account) && OneInFlight(Apply(s, e, now), account)
    ensures AccountInv(Apply(s, e, now), account, now)
  {
    if !Concerns(s, e, account) {
      OtherStepsDoNotTouch(s, e, account, now);
      UntouchedKeepsAccountInv(s, Apply(s, e, now), account, now);
    } else if e.StartInitiate? || e.StartConfirm? {
      if !At(s, e.pid) {
        var q := if e.StartInitiate? then Initiated(s, account, now) else Confirmed(s, account, e.id, now);
        if AccountOf(q) == Some(account) { StartedProcOk(s, e.pid, q, account, now); }
        StartKeepsAccountInv(s, e.pid, q, account, now);
      }
    } else {
      OwnStepKeepsAccountInv(s, e, account, now);
    }
  }

  // The runs.

  function Clock(ticks: seq<Tick>): Time {
    if ticks == [] then 0 else ticks[|ticks| - 1].now
  }

  lemma {:induction false} RunKeepsOwnRows(ticks: seq<Tick>)
    ensures OwnRows(After(ticks))
  {
    if ticks != [] {
      var last := ticks[|ticks| - 1];
      RunKeepsOwnRows(ticks[..|ticks| - 1]);
      ApplyKeepsOwnRows(After(ticks[..|ticks| - 1]), last.event, last.now);
    }
  }

  lemma {:induction false} RunKeepsAccountInv(ticks: seq<Tick>, account: Id)
    requires Timed(ticks) && OneAtATime(ticks, account)
    ensures AccountInv(After(ticks), account, Clock(ticks))
  {
    if ticks != [] {
      var before, last := ticks[..|ticks| - 1], ticks[|ticks| - 1];
      RunKeepsAccountInv(before, account);
      RunKeepsOwnRows(before);
      if before == [] {
        assert AccountInv(After(before), account, last.now);
      } else {
        LaterKeepsAccountInv(After(before), account, Clock(before), last.now);
      }
      ApplyKeepsAccountInv(After(before), last.event, account, last.now);
    }
  }

  /** One request of the account at a time is enough, whatever other accounts do meanwhile. */
  lemma OneRequestAtATimeKeepsTheCooldown(ticks: seq<Tick>, account: Id)
    requires Timed(ticks) && OneAtATime(ticks, account)
    ensures DayApart(After(ticks), account) && OneActive(After(ticks), account)
  {
    RunKeepsAccountInv(ticks, account);
  }

  // Two requests of one account are enough for either to fail.

  /** Everything happens at the instant 0, and only the requests 0 and 1 take part. */
  ghost predicate OfTwoRequests(ticks: seq<Tick>) {
    forall i :: 0 <= i < |ticks| ==> ticks[i].now == 0 && (ticks[i].event.NewCustomer? || ticks[i].event.pid < 2)
  }

  function Info(id: Id, hash: string): PC.ChangeInfo {
    PC.ChangeInfo(id, 1, PC.OtpToOldPhone, hash, [], None, id, DAY_MS)
  }

  lemma Extend(ticks: seq<Tick>, e: Event) returns (longer: seq<Tick>)
    requires OfTwoRequests(ticks) && (e.NewCustomer? || e.pid < 2)
    ensures OfTwoRequests(longer) && After(longer) == Apply(After(ticks), e, 0)
  {
    longer := ticks + [Tick(e, 0)];
    assert longer[..|longer| - 1] == ticks;
  }

  /** Both requests pass the cooldown. */
  lemma BothGated() returns (ticks: seq<Tick>)
    ensures OfTwoRequests(ticks)
    ensures After(ticks) ==
      State(Cust.WithCustomer(Cust.EMPTY, 1, "a", [], 0, 0, 0), PC.Table([], map[]), [],
            map[0 := Gated(1), 1 := Gated(1)])
  {
    ticks := Extend([], NewCustomer(1, "a", [], 0, 0));
    assert After(ticks).customers.accounts[1].cooldownUntil.None?;
    ticks := Extend(ticks, StartInitiate(0, 1));
    ticks := Extend(ticks, StartInitiate(1, 1));
    assert After(ticks).procs == map[0 := Gated(1), 1 := Gated(1)];
  }

  /** Both find no active change. */
  lemma Overlap() returns (ticks: seq<Tick>)
    ensures OfTwoRequests(ticks)
    ensures After(ticks) ==
      State(Cust.WithCustomer(Cust.EMPTY, 1, "a", [], 0, 0, 0), PC.Table([], map[]), [],
            map[0 := Drafting(1, 0), 1 := Drafting(1, 0)])
  {
    ticks := BothGated();
    ticks := Extend(ticks, FindActive(0));
    ticks := Extend(ticks, FindActive(1));
    assert After(ticks).procs == map[0 := Drafting(1, 0), 1 := Drafting(1, 0)];
  }

  lemma BothCreate() returns (ticks: seq<Tick>)
    ensures OfTwoRequests(ticks)
    ensures After(ticks).procs ==
      map[0 := Swapping(Binding(1, "b", [], 0), None), 1 := Swapping(Binding(1, "c", [], 0), None)]
    ensures After(ticks).swaps == [] && 1 in After(ticks).customers.accounts
    ensures After(ticks).customers.phoneHashes == map["a" := 1]
  {
    ticks := Overlap();
    ticks := Extend(ticks, CreateAtOnce(0, Info(10, "b")));
    ticks := Extend(ticks, CreateAtOnce(1, Info(11, "c")));
  }

  /** A swap to a hash nobody else holds takes effect. */
  lemma SwapTakesEffect(s: State, pid: Pid)
    requires pid in s.procs && s.procs[pid].Swapping? && s.procs[pid].completes.None?
    requires Cust.SwapOutcome(s.customers, s.procs[pid].binding.account, s.procs[pid].binding.hash) == Cust.Done
    ensures var s', b := Apply(s, SwapPhone(pid), 0), s.procs[pid].binding;
      && s'.swaps == s.swaps + [Swap(b.account, b.at)]
      && s'.procs == s.procs[pid := Finished]
      && b.account in s'.customers.accounts
      && s'.customers.phoneHashes.Values <= s.customers.phoneHashes.Values + {b.account}
  {}

  /** Both initiates change the number at once: two swaps with no time between them. */
  lemma TwoRequestsSwapTwice() returns (ticks: seq<Tick>)
    ensures Timed(ticks) && OfTwoRequests(ticks)
    ensures After(ticks).swaps == [Swap(1, 0), Swap(1, 0)]
  {
    ticks := BothCreate();
    SwapTakesEffect(After(ticks), 0);
    ticks := Extend(ticks, SwapPhone(0));
    assert forall h :: h in After(ticks).customers.phoneHashes ==>
        After(ticks).customers.phoneHashes[h] in After(ticks).customers.phoneHashes.Values;
    SwapTakesEffect(After(ticks), 1);
    ticks := Extend(ticks, SwapPhone(1));
  }

  /** Both initiates await a confirmation: two active changes of one account. */
  lemma TwoRequestsLeaveTwoActive() returns (ticks: seq<Tick>)
    ensures Timed(ticks) && OfTwoRequests(ticks)
    ensures ActiveOf(After(ticks).changes, 1, 10) && ActiveOf(After(ticks).changes, 1, 11)
  {
    ticks := Overlap();
    ticks := Extend(ticks, CreateAwaiting(0, Info(10, "b")));
    ticks := Extend(ticks, CreateAwaiting(1, Info(11, "c")));
  }
}
