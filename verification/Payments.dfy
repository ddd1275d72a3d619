/**
 The payment protocol as a state machine. Any number of engine processes and reconcilers
 (agents) interleave; a process may be killed between any two steps; the wallet is bound
 only by its documented contract. Nothing here relies on claim leases.
 */
module Payments {
  import opened Types
  import Budget
  import A = Accounting

  // ---- The wallet ----

  datatype HostErrorKind = Unavailable | TimedOut | Cancelled | Rejected | NotFound | AlreadyInProgress | Internal

  /** The wallet refused before submission; every other error is ambiguous. */
  predicate ConfirmsNotSubmitted(kind: HostErrorKind) {
    kind.Rejected? || kind.NotFound?
  }

  datatype Status = Unknown | InFlight | Settled(preimage: nat, amountMsat: nat, feeMsat: nat) | Failed

  datatype PayRequest = PayRequest(invoice: string, amount: Option<nat>, maximumFee: nat, key: EventId)

  /** Progress of the payment under one idempotency key once the wallet has been called. */
  datatype Phase = Called | Submitted | Paid | Dead

  datatype WalletKey = WalletKey(request: PayRequest, hash: PaymentHash, phase: Phase)

  predicate Advances(before: Option<Phase>, after: Phase) {
    match before
    case None => true
    case Some(Called) => true
    case Some(Submitted) => !after.Called?
    case Some(phase) => after == phase
  }

  /** A call may also revive a key the wallet once declared dead, if the wallet does not remember that. */
  predicate CallAdvances(before: Option<Phase>, after: Phase) {
    Advances(before, after) || before == Some(Dead)
  }

  /** What `start_payment` may answer, given the key's progress before and after the call. */
  predicate StartContract(before: Option<Phase>, reply: Result<Status, HostErrorKind>, after: Phase) {
    && CallAdvances(before, after)
    && match reply {
         case Ok(Failed) => after.Dead?
         case Ok(Settled(_, _, _)) => after.Paid?
         case Ok(_) => true
         case Err(kind) =>
           kind.Rejected? || kind.NotFound? ==> after.Dead? && (before.Some? ==> before.value.Called? || before.value.Dead?)
       }
  }

  /** A failed status by hash certifies that no payment under that hash can still settle. */
  predicate StatusContract(wallet: map<EventId, WalletKey>, hash: PaymentHash, reply: Result<Status, HostErrorKind>) {
    reply == Ok(Failed) ==>
      forall k <- wallet :: wallet[k].hash == hash ==> wallet[k].phase.Called? || wallet[k].phase.Dead?
  }

  function AfterStatus(wallet: map<EventId, WalletKey>, hash: PaymentHash, reply: Result<Status, HostErrorKind>)
    : map<EventId, WalletKey>
  {
    if reply == Ok(Failed) then map k <- wallet :: if wallet[k].hash == hash then wallet[k].(phase := Dead) else wallet[k]
    else wallet
  }

  // ---- Processes ----

  /** The authenticated content of one `pay_invoice` event and the authorization it arrived under. */
  datatype Order = Order(connection: ConnectionId, revision: nat, invoice: string, amount: Option<nat>)

  datatype Answer = PaidAnswer | DeclinedAnswer

  /** Where one process stands, with the attempt snapshot it read. */
  datatype Agent =
    | Idle
    | Loaded(event: EventId, snap: A.Attempt)
    | Checked(event: EventId, snap: A.Attempt)
    | Cleared(event: EventId, snap: A.Attempt)
    | Armed(event: EventId, snap: A.Attempt)
    | Reported(event: EventId, hash: PaymentHash, status: Status)
    | Uncertain(event: EventId, hash: PaymentHash)
    | Refused(event: EventId, hash: PaymentHash)
    | Reviewing(snap: A.Attempt)
    | Answering(event: EventId, answer: Answer)

  datatype World = World(
    accounts: A.Accounts,
    imported: map<A.PeriodKey, nat>,
    grants: map<ConnectionId, A.Grant>,
    orders: map<EventId, Order>,
    wallet: map<EventId, WalletKey>,
    agents: map<nat, Agent>,
    calls: seq<PayRequest>)

  datatype Action =
    | Load(i: nat, event: EventId)
    | ReserveFor(i: nat, event: EventId, hash: PaymentHash, principal: nat, now: nat)
    | Settle(i: nat)
    | Inquire(i: nat, reply: Result<Status, HostErrorKind>)
    | ResumeBlind(i: nat)
    | Authorize(i: nat)
    | Mark(i: nat, now: nat)
    | Start(i: nat, reply: Result<Status, HostErrorKind>, phase: Phase)
    | Record(i: nat, now: nat)
    | RecordUncertain(i: nat, now: nat)
    | Release(i: nat, now: nat)
    | Review(i: nat, event: EventId)
    | SkipReview(i: nat)
    | ReviewStatus(i: nat, reply: Result<Status, HostErrorKind>)
    | Crash(i: nat)
    | Progress(key: EventId, phase: Phase)
    | Issue(connection: ConnectionId, grant: A.Grant, importedSat: nat, now: nat)
    | Revoke(connection: ConnectionId)

  function AgentOf(w: World, i: nat): Agent {
    if i in w.agents then w.agents[i] else Idle
  }

  function Goto(w: World, i: nat, agent: Agent): World {
    w.(agents := w.agents[i := agent])
  }

  predicate RevisionActive(w: World, connection: ConnectionId, revision: nat) {
    connection in w.grants && w.grants[connection].revision == revision && w.grants[connection].active
  }

  /** A durable marker without a recorded status: ask by idempotency key before asking by hash. */
  predicate MustResumeBeforeStatus(snap: A.Attempt) {
    snap.state.Reserved? && snap.WasInitiated()
  }

  function Request(w: World, event: EventId, fee: nat): PayRequest
    requires event in w.orders
  {
    PayRequest(w.orders[event].invoice, w.orders[event].amount, fee, event)
  }

  function PhaseOf(w: World, key: EventId): Option<Phase> {
    if key in w.wallet then Some(w.wallet[key].phase) else None
  }

  /** The attempts a reconciler loads. */
  predicate Unresolved(w: World, event: EventId) {
    && event in w.accounts.attempts
    && (w.accounts.attempts[event].state.Reserved? || w.accounts.attempts[event].state.Pending?)
    && !w.accounts.attempts[event].legacyAmbiguous
  }

  // ---- One step ----

  predicate Enabled(w: World, a: Action) {
    match a
    case Load(i, event) => AgentOf(w, i).Idle? && event in w.orders
    case ReserveFor(i, event, _, _, _) => AgentOf(w, i).Idle? && event in w.orders
    case Settle(i) =>
      AgentOf(w, i).Loaded? && (AgentOf(w, i).snap.legacyAmbiguous || AgentOf(w, i).snap.state.Failed?)
    case Inquire(i, reply) =>
      && AgentOf(w, i).Loaded?
      && !AgentOf(w, i).snap.legacyAmbiguous
      && !AgentOf(w, i).snap.state.Failed?
      && !MustResumeBeforeStatus(AgentOf(w, i).snap)
      && StatusContract(w.wallet, AgentOf(w, i).snap.hash, reply)
    case ResumeBlind(i) =>
      AgentOf(w, i).Loaded? && !AgentOf(w, i).snap.legacyAmbiguous && MustResumeBeforeStatus(AgentOf(w, i).snap)
    case Authorize(i) => AgentOf(w, i).Checked?
    case Mark(i, _) => AgentOf(w, i).Cleared?
    case Start(i, reply, phase) =>
      && AgentOf(w, i).Armed?
      && AgentOf(w, i).event in w.orders
      && StartContract(PhaseOf(w, AgentOf(w, i).event), reply, phase)
    case Record(i, _) => AgentOf(w, i).Reported?
    case RecordUncertain(i, _) => AgentOf(w, i).Uncertain?
    case Release(i, _) => AgentOf(w, i).Refused?
    case Review(i, event) => AgentOf(w, i).Idle? && Unresolved(w, event)
    case SkipReview(i) => AgentOf(w, i).Reviewing? && MustResumeBeforeStatus(AgentOf(w, i).snap)
    case ReviewStatus(i, reply) =>
      && AgentOf(w, i).Reviewing?
      && !MustResumeBeforeStatus(AgentOf(w, i).snap)
      && StatusContract(w.wallet, AgentOf(w, i).snap.hash, reply)
    case Crash(_) => true
    case Progress(key, phase) => key in w.wallet && Advances(Some(w.wallet[key].phase), phase)
    case Issue(connection, grant, importedSat, now) =>
      connection !in w.grants && grant.createdAt <= now && Fits(now) && importedSat <= grant.budget.limitSat
      && Fits(grant.budget.limitSat)
    case Revoke(connection) => connection in w.grants && w.grants[connection].active
  }

  /** Branches after a wallet status for an attempt the process did not just start. */
  function AfterInquiry(event: EventId, snap: A.Attempt, reply: Result<Status, HostErrorKind>): Agent {
    match reply
    case Err(_) => Idle
    case Ok(Unknown) => Checked(event, snap)
    case Ok(status) =>
      if snap.MayDiscloseSettlement() then Reported(event, snap.hash, status) else Refused(event, snap.hash)
  }

  /** The reconciler's branches: it never starts a payment. */
  function AfterReview(snap: A.Attempt, reply: Result<Status, HostErrorKind>): Agent {
    match reply
    case Err(_) => Idle
    case Ok(Unknown) => Idle
    case Ok(status) =>
      if !snap.MayDiscloseSettlement() then Refused(snap.event, snap.hash)
      else if status.InFlight? then Idle
      else Reported(snap.event, snap.hash, status)
  }

  function AfterStart(event: EventId, hash: PaymentHash, reply: Result<Status, HostErrorKind>): Agent {
    match reply
    case Ok(status) => Reported(event, hash, status)
    case Err(kind) => if ConfirmsNotSubmitted(kind) then Reported(event, hash, Failed) else Uncertain(event, hash)
  }

  function ImportedPeriod(grant: A.Grant, connection: ConnectionId, now: nat): A.PeriodKey {
    var start := Budget.CheckedPeriodStart(grant.budget.interval, grant.createdAt, now);
    A.PeriodKey(connection, if start.Ok? then start.value else grant.createdAt)
  }

  function RecordStatus(w: World, hash: PaymentHash, status: Status, now: nat)
    : (A.Accounts, Result<A.Attempt, A.AccountingError>)
  {
    match status
    case Unknown => A.MarkPending(w.accounts, hash, now)
    case InFlight => A.MarkPending(w.accounts, hash, now)
    case Settled(_, amount, fee) => A.MarkSucceeded(w.accounts, w.grants, hash, amount, fee, now)
    case Failed => A.MarkFailed(w.accounts, hash, now)
  }

  function AfterRecord(event: EventId, status: Status, ok: bool): Agent {
    if !ok then Idle
    else match status
      case Settled(_, _, _) => Answering(event, PaidAnswer)
      case Failed => Answering(event, DeclinedAnswer)
      case _ => Idle
  }

  // ---- The effect of each step ----

  function DoLoad(w: World, i: nat, event: EventId): World
    requires event in w.orders
  {
    if event !in w.accounts.attempts then w
    else
      var t := w.accounts.attempts[event];
      if t.connection != w.orders[event].connection || t.revision != w.orders[event].revision
      then Goto(w, i, Answering(event, DeclinedAnswer))
      else Goto(w, i, Loaded(event, t))
  }

  function AfterReserve(event: EventId, r: Result<A.ReservationOutcome, A.AccountingError>): Agent {
    match r
    case Ok(NewReservation(t)) => Loaded(event, t)
    case Ok(Existing(t)) => Loaded(event, t)
    case Ok(AlreadyTracked(_)) => Answering(event, DeclinedAnswer)
    case Err(DatabaseUnavailable) => Idle
    case Err(CorruptData) => Idle
    case Err(TerminalStateConflict) => Idle
    case Err(ConnectionUnavailable) => Idle
    case Err(_) => Answering(event, DeclinedAnswer)
  }

  function DoReserve(w: World, i: nat, event: EventId, hash: PaymentHash, principal: nat, now: nat): World
    requires event in w.orders
  {
    var order := w.orders[event];
    var (next, r) := A.Reserve(w.accounts, w.grants, event, hash, order.connection, order.revision, principal, now);
    Goto(w.(accounts := next), i, AfterReserve(event, r))
  }

  function DoAuthorize(w: World, i: nat, event: EventId, snap: A.Attempt): World {
    if RevisionActive(w, snap.connection, snap.revision) && !snap.state.Succeeded?
    then Goto(w, i, Cleared(event, snap))
    else Goto(w, i, Idle)
  }

  function DoStatus(w: World, i: nat, hash: PaymentHash, reply: Result<Status, HostErrorKind>, agent: Agent): World {
    Goto(w.(wallet := AfterStatus(w.wallet, hash, reply)), i, agent)
  }

  function DoMark(w: World, i: nat, event: EventId, snap: A.Attempt, now: nat): World {
    if snap.WasInitiated() then Goto(w, i, Armed(event, snap))
    else
      var (next, r) := A.MarkInitiated(w.accounts, snap.hash, now);
      Goto(w.(accounts := next), i, if r.Ok? then Armed(event, snap) else Idle)
  }

  function DoStart(w: World, i: nat, event: EventId, snap: A.Attempt, reply: Result<Status, HostErrorKind>, phase: Phase): World
    requires event in w.orders
  {
    var request := Request(w, event, snap.feeReserveSat);
    var key := if event in w.wallet then w.wallet[event].(phase := phase) else WalletKey(request, snap.hash, phase);
    Goto(w.(wallet := w.wallet[event := key], calls := w.calls + [request]), i, AfterStart(event, snap.hash, reply))
  }

  function DoRecord(w: World, i: nat, event: EventId, hash: PaymentHash, status: Status, now: nat): World {
    var (next, r) := RecordStatus(w, hash, status, now);
    Goto(w.(accounts := next), i, AfterRecord(event, status, r.Ok?))
  }

  function DoRelease(w: World, i: nat, event: EventId, hash: PaymentHash, now: nat): World {
    var (next, r) := A.ReleaseUninitiated(w.accounts, hash, now);
    Goto(w.(accounts := next), i, if r.Ok? then Answering(event, DeclinedAnswer) else Idle)
  }

  function DoProgress(w: World, key: EventId, phase: Phase): World
    requires key in w.wallet
  {
    w.(wallet := w.wallet[key := w.wallet[key].(phase := phase)])
  }

  function DoIssue(w: World, connection: ConnectionId, grant: A.Grant, importedSat: nat, now: nat): World {
    var issued := w.(grants := w.grants[connection := grant]);
    if importedSat == 0 then issued
    else
      var key := ImportedPeriod(grant, connection, now);
      issued.(accounts := w.accounts.(periods := w.accounts.periods[key := A.Period(grant.budget.limitSat, importedSat, now)]),
              imported := w.imported[key := importedSat])
  }

  function DoRevoke(w: World, connection: ConnectionId): World
    requires connection in w.grants
  {
    w.(grants := w.grants[connection := w.grants[connection].(active := false, revision := w.grants[connection].revision + 1)])
  }

  function Apply(w: World, a: Action): World
    requires Enabled(w, a)
  {
    match a
    case Load(i, event) => DoLoad(w, i, event)
    case ReserveFor(i, event, hash, principal, now) => DoReserve(w, i, event, hash, principal, now)
    case Settle(i) => Goto(w, i, Answering(AgentOf(w, i).event, DeclinedAnswer))
    case Inquire(i, reply) =>
      var agent := AgentOf(w, i);
      DoStatus(w, i, agent.snap.hash, reply, AfterInquiry(agent.event, agent.snap, reply))
    case ResumeBlind(i) => Goto(w, i, Checked(AgentOf(w, i).event, AgentOf(w, i).snap))
    case Authorize(i) => DoAuthorize(w, i, AgentOf(w, i).event, AgentOf(w, i).snap)
    case Mark(i, now) => DoMark(w, i, AgentOf(w, i).event, AgentOf(w, i).snap, now)
    case Start(i, reply, phase) => DoStart(w, i, AgentOf(w, i).event, AgentOf(w, i).snap, reply, phase)
    case Record(i, now) => DoRecord(w, i, AgentOf(w, i).event, AgentOf(w, i).hash, AgentOf(w, i).status, now)
    case RecordUncertain(i, now) => DoRecord(w, i, AgentOf(w, i).event, AgentOf(w, i).hash, Unknown, now)
    case Release(i, now) => DoRelease(w, i, AgentOf(w, i).event, AgentOf(w, i).hash, now)
    case Review(i, event) => Goto(w, i, Reviewing(w.accounts.attempts[event]))
    case SkipReview(i) => Goto(w, i, Idle)
    case ReviewStatus(i, reply) =>
      DoStatus(w, i, AgentOf(w, i).snap.hash, reply, AfterReview(AgentOf(w, i).snap, reply))
    case Crash(i) => Goto(w, i, Idle)
    case Progress(key, phase) => DoProgress(w, key, phase)
    case Issue(connection, grant, importedSat, now) => DoIssue(w, connection, grant, importedSat, now)
    case Revoke(connection) => DoRevoke(w, connection)
  }

  /** The process an action belongs to, if any. */
  function Actor(a: Action): Option<nat> {
    match a
    case Progress(_, _) => None
    case Issue(_, _, _, _) => None
    case Revoke(_) => None
    case _ => Some(a.i)
  }

  // ---- Runs ----

  ghost predicate Run(w: World, actions: seq<Action>)
    decreases |actions|
  {
    actions == [] || (Enabled(w, actions[0]) && Run(Apply(w, actions[0]), actions[1..]))
  }

  ghost function After(w: World, actions: seq<Action>): World
    requires Run(w, actions)
    decreases |actions|
  {
    if actions == [] then w else After(Apply(w, actions[0]), actions[1..])
  }

  lemma {:induction false} ExtendRun(w: World, actions: seq<Action>, a: Action)
    requires Run(w, actions) && Enabled(After(w, actions), a)
    ensures Run(w, actions + [a]) && After(w, actions + [a]) == Apply(After(w, actions), a)
    decreases |actions|
  {
    if actions == [] {
      assert [] + [a] == [a] && [a][1..] == [];
    } else {
      assert (actions + [a])[0] == actions[0] && (actions + [a])[1..] == actions[1..] + [a];
      ExtendRun(Apply(w, actions[0]), actions[1..], a);
    }
  }

  /** The fee the policy of an event's own connection reserves. */
  predicate FeeOk(w: World, e: EventId, fee: nat) {
    && e in w.orders && w.orders[e].connection in w.grants
    && fee == Budget.FeeReserve(w.grants[w.orders[e].connection].budget)
  }

  /** An attempt settled before the run starts: the wallet knows its key, and its outcome is final. */
  predicate SettledBefore(w: World, e: EventId, t: A.Attempt) {
    && (t.state.Succeeded? || t.state.Failed?)
    && FeeOk(w, e, t.feeReserveSat)
    && e in w.wallet && w.wallet[e].hash == t.hash && w.wallet[e].request == Request(w, e, t.feeReserveSat)
    && (t.state.Succeeded? ==>
          && t.connection in w.grants && t.actualPrincipalSat.Some? && t.actualFeeSat.Some?
          && t.chargedSat == Some(t.actualPrincipalSat.value
                                  + (if w.grants[t.connection].budget.feePolicy.CountTowardBudget? then t.actualFeeSat.value else 0)))
    && w.wallet[e].phase == if t.state.Succeeded? then Paid else Dead
  }

  /**
   A ledger before any process of this version runs: settled attempts, and debits an older schema left
   unresolved. New reservations are made in the run.
   */
  ghost predicate Init(w: World) {
    && A.Sound(w.accounts, w.imported)
    && PeriodsOwned(w)
    && (forall e <- w.accounts.attempts ::
          var t := w.accounts.attempts[e];
          && t.WasInitiated()
          && (if t.legacyAmbiguous then (t.state.Reserved? || t.state.Pending?) && e !in w.wallet else SettledBefore(w, e, t)))
    && (forall k <- w.wallet :: k in w.accounts.attempts)
    && w.agents == map[] && w.calls == []
  }

  /** Every budget period belongs to a registered connection (the foreign key). */
  ghost predicate PeriodsOwned(w: World) {
    forall key <- w.accounts.periods :: key.connection in w.grants
  }
}
