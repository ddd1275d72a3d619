/**
 The engine's payment methods and the reconciler in the program's own control flow. Every call
 to the ledger or the wallet is one action of the payment protocol; between two of them other
 processes may act and the process may be killed. Each method is proved to perform a run of
 the protocol, so that the results about runs hold of it.
 */
module PaymentEngine {
  import opened Types
  import opened Payments
  import opened PaymentSafety
  import opened PaymentRecords
  import A = Accounting

  const MAX_INVOICE_BYTES: nat := 16_384

  const MAX_PAYMENT_RECONCILIATION_BATCH: nat := 100

  datatype Disposition = RespondPaid | RespondDeclined | RetryLater | HandToApplication | RejectClaim | Killed

  /** How a payment request ends in one process. */
  datatype Ended =
    | Unreadable
    | ForeignAttempt
    | UnusableInvoice
    | QuoteFailed(kind: HostErrorKind)
    | NotReserved(error: A.AccountingError)
    | TrackedElsewhere
    | LegacyDebit
    | ReplayedFailure
    | Inactive
    | OutOfTime
    | StatusUnavailable
    | ExternalStatus(released: bool)
    | SettledSnapshot
    | MarkRefused
    | CallAmbiguous(recorded: bool)
    | Concluded(status: Status, recorded: bool, notified: bool)

  /** What the request is told for each end. */
  function AnswerTo(e: Ended): Disposition {
    match e
    case Unreadable => HandToApplication
    case ForeignAttempt => RespondDeclined
    case UnusableInvoice => RespondDeclined
    case QuoteFailed(kind) =>
      if kind in {Unavailable, TimedOut, AlreadyInProgress} then RetryLater
      else if kind == Cancelled then HandToApplication else RespondDeclined
    case NotReserved(error) =>
      if error == A.ConnectionUnavailable then RejectClaim
      else if error in {A.BudgetExceeded, A.InvalidAmount, A.ValueOutOfRange, A.ReservationConflict} then RespondDeclined
      else HandToApplication
    case TrackedElsewhere => RespondDeclined
    case LegacyDebit => RespondDeclined
    case ReplayedFailure => RespondDeclined
    case Inactive => RejectClaim
    case OutOfTime => RetryLater
    case StatusUnavailable => RetryLater
    case ExternalStatus(released) => if released then RespondDeclined else HandToApplication
    case SettledSnapshot => RetryLater
    case MarkRefused => HandToApplication
    case CallAmbiguous(recorded) => if recorded then RetryLater else HandToApplication
    case Concluded(status, recorded, notified) =>
      if !recorded then HandToApplication
      else if status.Settled? then (if notified then RespondPaid else HandToApplication)
      else if status == Status.Failed then RespondDeclined else RetryLater
  }

  // ---- The report of a pass ----

  datatype Heading = SettledHeading | FailedHeading | DiscardedHeading | UnresolvedHeading | DeferredHeading

  datatype PassError = InvalidBatchSize | AccountingFailed

  datatype SlotEnd = CountedSlot | OutOfSlotTime | FailedSlot

  /** One attempt a pass asked about, as it was loaded, and what the wallet answered. */
  datatype Asked = Asked(snap: A.Attempt, reply: Result<Status, HostErrorKind>)

  /** Where an answer is counted; an external status discards what was never marked. */
  ghost function HeadingOf(snap: A.Attempt, reply: Result<Status, HostErrorKind>): Heading {
    match reply
    case Err(_) => DeferredHeading
    case Ok(Unknown) => UnresolvedHeading
    case Ok(status) =>
      if snap.initiatedAt.None? || snap.legacyAmbiguous || snap.state == A.Reserved then DiscardedHeading
      else if status.InFlight? then UnresolvedHeading
      else if status.Settled? then SettledHeading else FailedHeading
  }

  ghost function Counted(before: ReconciliationReport, snap: A.Attempt, reply: Result<Status, HostErrorKind>): ReconciliationReport {
    var report := before.(examined := before.examined + 1);
    match HeadingOf(snap, reply)
    case SettledHeading => report.(succeeded := report.succeeded + 1)
    case FailedHeading => report.(failed := report.failed + 1)
    case DiscardedHeading => report.(discarded := report.discarded + 1)
    case UnresolvedHeading => report.(unresolved := report.unresolved + 1)
    case DeferredHeading => report.(deferred := report.deferred + 1)
  }

  /** The report over everything asked. */
  ghost function Tallied(asked: seq<Asked>): ReconciliationReport {
    if asked == [] then ReconciliationReport(0, 0, 0, 0, 0, 0, false, false)
    else Counted(Tallied(asked[..|asked| - 1]), asked[|asked| - 1].snap, asked[|asked| - 1].reply)
  }

  ghost function Snaps(asked: seq<Asked>): seq<A.Attempt> {
    seq(|asked|, k requires 0 <= k < |asked| => asked[k].snap)
  }

  /** The attempts of a batch a pass asks about: all but the marked reservations. */
  ghost function Queried(accounts: A.Accounts, batch: seq<EventId>): seq<A.Attempt>
    requires forall e <- batch :: e in accounts.attempts
  {
    if batch == [] then []
    else
      var t := accounts.attempts[batch[|batch| - 1]];
      Queried(accounts, batch[..|batch| - 1]) + (if t.state == A.Reserved && t.initiatedAt.Some? then [] else [t])
  }

  lemma {:induction false} QueriedGrows(accounts: A.Accounts, batch: seq<EventId>, n: nat)
    requires (forall e <- batch :: e in accounts.attempts) && n <= |batch|
    ensures Queried(accounts, batch[..n]) <= Queried(accounts, batch)
    ensures |Queried(accounts, batch)| <= |batch|
    decreases |batch|
  {
    if n < |batch| {
      QueriedGrows(accounts, batch[..|batch| - 1], n);
      assert batch[..|batch| - 1][..n] == batch[..n];
    } else {
      assert batch[..n] == batch;
      if batch != [] {
        QueriedGrows(accounts, batch[..|batch| - 1], |batch| - 1);
      }
    }
  }

  lemma QueriedExtends(accounts: A.Accounts, batch: seq<EventId>, n: nat)
    requires (forall e <- batch :: e in accounts.attempts) && n < |batch|
    ensures var t := accounts.attempts[batch[n]];
            Queried(accounts, batch[..n + 1])
            == Queried(accounts, batch[..n]) + (if t.state == A.Reserved && t.initiatedAt.Some? then [] else [t])
    ensures Queried(accounts, batch[..n + 1]) <= Queried(accounts, batch)
  {
    assert batch[..n + 1][..n] == batch[..n];
    QueriedGrows(accounts, batch, n + 1);
  }

  lemma SnapsExtend(asked: seq<Asked>, next: Asked)
    ensures Snaps(asked + [next]) == Snaps(asked) + [next.snap]
    ensures Tallied(asked + [next]) == Counted(Tallied(asked), next.snap, next.reply)
  {
    assert (asked + [next])[..|asked|] == asked;
  }

  /** A pass that has dealt with the first attempts of its batch. */
  ghost predicate PassAt(accounts: A.Accounts, batch: seq<EventId>, n: nat, asked: seq<Asked>, skipped: nat, report: ReconciliationReport) {
    && (forall e <- batch :: e in accounts.attempts) && n <= |batch|
    && report == Tallied(asked) && Snaps(asked) == Queried(accounts, batch[..n]) && |asked| + skipped == n
  }

  lemma PassBegins(accounts: A.Accounts, batch: seq<EventId>)
    requires forall e <- batch :: e in accounts.attempts
    ensures PassAt(accounts, batch, 0, [], 0, ReconciliationReport(0, 0, 0, 0, 0, 0, false, false))
  {
    assert batch[..0] == [];
  }

  lemma PassSkips(accounts: A.Accounts, batch: seq<EventId>, n: nat, asked: seq<Asked>, skipped: nat, report: ReconciliationReport)
    requires PassAt(accounts, batch, n, asked, skipped, report) && n < |batch|
    requires var t := accounts.attempts[batch[n]]; t.state == A.Reserved && t.initiatedAt.Some?
    ensures PassAt(accounts, batch, n + 1, asked, skipped + 1, report)
  {
    QueriedExtends(accounts, batch, n);
  }

  lemma PassAsks(accounts: A.Accounts, batch: seq<EventId>, n: nat, asked: seq<Asked>, skipped: nat, report: ReconciliationReport,
                 reply: Result<Status, HostErrorKind>)
    requires PassAt(accounts, batch, n, asked, skipped, report) && n < |batch|
    requires var t := accounts.attempts[batch[n]]; !(t.state == A.Reserved && t.initiatedAt.Some?)
    ensures var t := accounts.attempts[batch[n]];
            PassAt(accounts, batch, n + 1, asked + [Asked(t, reply)], skipped, Counted(report, t, reply))
  {
    QueriedExtends(accounts, batch, n);
    SnapsExtend(asked, Asked(accounts.attempts[batch[n]], reply));
  }

  /**
   The report of a pass that ended normally: it counts exactly what was asked, which is the batch without its
   marked reservations, or a first part of it after an interruption; it asks for another pass unless every
   attempt of the batch was resolved and no others wait.
   */
  ghost predicate PassReport(accounts: A.Accounts, batch: seq<EventId>, asked: seq<Asked>, hasAdditional: bool, report: ReconciliationReport)
    requires forall e <- batch :: e in accounts.attempts
  {
    && report == Tallied(asked).(interrupted := report.interrupted, needsRetry := report.needsRetry)
    && Snaps(asked) <= Queried(accounts, batch)
    && (report.interrupted ==> report.needsRetry)
    && (!report.interrupted ==>
          && Snaps(asked) == Queried(accounts, batch)
          && (report.needsRetry <==> hasAdditional || report.unresolved > 0 || report.deferred > 0
                                     || |Queried(accounts, batch)| < |batch|))
  }

  lemma PassEnds(accounts: A.Accounts, batch: seq<EventId>, asked: seq<Asked>, skipped: nat, hasAdditional: bool, report: ReconciliationReport)
    requires PassAt(accounts, batch, |batch|, asked, skipped, report) && !report.interrupted
    ensures PassReport(accounts, batch, asked, hasAdditional,
                       report.(needsRetry := hasAdditional || skipped > 0 || report.unresolved != 0 || report.deferred != 0))
  {
    QueriedGrows(accounts, batch, |batch|);
    assert batch[..|batch|] == batch && |Snaps(asked)| == |asked|;
  }

  lemma PassStops(accounts: A.Accounts, batch: seq<EventId>, n: nat, asked: seq<Asked>, skipped: nat, hasAdditional: bool,
                  report: ReconciliationReport)
    requires PassAt(accounts, batch, n, asked, skipped, report)
    ensures PassReport(accounts, batch, asked, hasAdditional, report.(interrupted := true, needsRetry := true))
  {
    QueriedGrows(accounts, batch, n);
  }

  /** An attempt a reconciler may load: unresolved, and not an ambiguous debit of an older schema. */
  ghost predicate Loadable(w: World, event: EventId) {
    && event in w.accounts.attempts && !w.accounts.attempts[event].legacyAmbiguous
    && (w.accounts.attempts[event].state == A.Reserved || w.accounts.attempts[event].state == A.Pending)
  }

  /** The reservation transaction for the event's own order. */
  ghost function ReservationAnswer(w: World, event: EventId, hash: PaymentHash, principal: nat, now: nat)
    : Result<A.ReservationOutcome, A.AccountingError>
    requires event in w.orders
  {
    A.Reserve(w.accounts, w.grants, event, hash, w.orders[event].connection, w.orders[event].revision, principal, now).1
  }

  /** An event without an attempt, with its own, or with one of another authorization. */
  ghost function LoadedAgent(w: World, event: EventId): Agent
    requires event in w.orders
  {
    if event !in w.accounts.attempts then Idle
    else
      var t, order := w.accounts.attempts[event], w.orders[event];
      if t.connection == order.connection && t.revision == order.revision then Loaded(event, t) else Answering(event, DeclinedAnswer)
  }

  /** The connection's row is at this revision and active. */
  ghost predicate RowActive(w: World, connection: ConnectionId, revision: nat) {
    connection in w.grants && w.grants[connection].revision == revision && w.grants[connection].active
  }

  datatype ReconciliationReport = ReconciliationReport(
    examined: nat, succeeded: nat, failed: nat, discarded: nat, unresolved: nat, deferred: nat,
    interrupted: bool, needsRetry: bool)

  /** The steps of a process that are counted. */
  datatype Kind = Calls | Reservations

  predicate IsStep(a: Action, me: nat, kind: Kind) {
    match kind
    case Calls => a.Start? && a.i == me
    case Reservations => a.ReserveFor? && a.i == me
  }

  /** How often one process has called the wallet, or reserved after a quote. */
  ghost function StepsBy(me: nat, kind: Kind, actions: seq<Action>): nat {
    if actions == [] then 0
    else
      var last := actions[|actions| - 1];
      StepsBy(me, kind, actions[..|actions| - 1]) + (if IsStep(last, me, kind) then 1 else 0)
  }

  /** The steps that write an attempt's outcome. */
  datatype Effect = ReleasesIt | RecordsIt | RecordsDoubt

  predicate IsEffect(a: Action, me: nat, effect: Effect) {
    match effect
    case ReleasesIt => a.Release? && a.i == me
    case RecordsIt => a.Record? && a.i == me
    case RecordsDoubt => a.RecordUncertain? && a.i == me
  }

  /** The process took such a step in the later part of the run. */
  ghost predicate Did(me: nat, effect: Effect, before: seq<Action>, after: seq<Action>) {
    exists k :: |before| <= k < |after| && IsEffect(after[k], me, effect)
  }

  lemma StepIsDone(me: nat, effect: Effect, before: seq<Action>, after: seq<Action>, a: Action)
    requires before + [a] <= after && IsEffect(a, me, effect)
    ensures Did(me, effect, before, after)
  {
    assert after[|before|] == (before + [a])[|before|];
  }

  /** One reservation after a quote. */
  datatype Want = Want(event: EventId, hash: PaymentHash, principalSat: nat)

  /** What one process has asked to reserve, in order. */
  ghost function WantsBy(me: nat, actions: seq<Action>): seq<Want> {
    if actions == [] then []
    else
      var last := actions[|actions| - 1];
      WantsBy(me, actions[..|actions| - 1]) + (if IsStep(last, me, Reservations) then [Want(last.event, last.hash, last.principal)] else [])
  }

  lemma {:induction false} WantsAreReservations(me: nat, before: seq<Action>, after: seq<Action>)
    requires before <= after
    ensures WantsBy(me, before) <= WantsBy(me, after)
    ensures |WantsBy(me, after)| == StepsBy(me, Reservations, after)
    decreases |after|
  {
    if |before| < |after| {
      WantsAreReservations(me, before, after[..|after| - 1]);
    } else {
      assert before == after;
      if after != [] {
        WantsAreReservations(me, after[..|after| - 1], after[..|after| - 1]);
      }
    }
  }

  /** One more reservation was asked for: the quoted hash, and the quoted principal rounded up to satoshi. */
  ghost predicate WantsQuoted(me: nat, event: EventId, quoted: Option<(PaymentHash, nat)>, before: seq<Action>, after: seq<Action>) {
    quoted.Some? && exists sat: nat ::
      && sat > 0 && quoted.value.1 <= 1_000 * sat < quoted.value.1 + 1_000
      && WantsBy(me, after) == WantsBy(me, before) + [Want(event, quoted.value.0, sat)]
  }

  /** Without a reservation in between nothing more was wanted. */
  lemma SameWants(me: nat, before: seq<Action>, after: seq<Action>)
    requires before <= after && StepsBy(me, Reservations, after) == StepsBy(me, Reservations, before)
    ensures WantsBy(me, after) == WantsBy(me, before)
  {
    WantsAreReservations(me, before, after);
    WantsAreReservations(me, before, before);
  }

  lemma OthersStay(w: World, a: Action, me: nat)
    requires Enabled(w, a) && Actor(a) == Some(me)
    ensures Apply(w, a).orders == w.orders
    ensures forall j: nat :: j != me ==> AgentOf(Apply(w, a), j) == AgentOf(w, j)
    ensures forall j: nat, kind :: j != me ==> !IsStep(a, j, kind)
    ensures IsStep(a, me, Calls) <==> a.Start?
    ensures IsStep(a, me, Reservations) <==> a.ReserveFor?
  {
    OnlyActorMoves(w, a);
  }

  /** `slots` are the positions this process works at; a reconciler holds one per attempt it loaded. */
  class PaymentProcess {
    var world: World
    const slots: set<nat>
    ghost var start: World
    ghost var trace: seq<Action>

    /** The shared state is where some run from a sound ledger has led. */
    ghost predicate Valid()
      reads this
    {
      Run(start, trace) && After(start, trace) == world && Grounded(start)
    }

    constructor (w: World, mine: set<nat>)
      requires Grounded(w)
      ensures Valid() && world == start == w && trace == [] && slots == mine
    {
      world, start, trace, slots := w, w, [], mine;
    }

    /** One committed transaction or one wallet call. */
    method Do(a: Action)
      requires Valid() && Enabled(world, a)
      modifies this
      ensures Valid() && start == old(start)
      ensures world == Apply(old(world), a) && trace == old(trace) + [a]
      ensures forall m: nat, kind :: StepsBy(m, kind, trace) == StepsBy(m, kind, old(trace)) + (if IsStep(a, m, kind) then 1 else 0)
    {
      ExtendRun(start, trace, a);
      world := Apply(world, a);
      trace := trace + [a];
      assert trace[..|trace| - 1] == old(trace);
    }

    /** What every method here guarantees: a longer run, with known numbers of own calls and reservations. */
    twostate predicate Advanced(me: nat, calls: nat, reservations: nat)
      reads this
    {
      && Valid() && start == old(start) && old(trace) <= trace && world.orders == old(world).orders
      && StepsBy(me, Calls, trace) == StepsBy(me, Calls, old(trace)) + calls
      && StepsBy(me, Reservations, trace) == StepsBy(me, Reservations, old(trace)) + reservations
      && (forall j <- slots :: j != me ==> AgentOf(world, j) == AgentOf(old(world), j))
      && forall j <- slots :: j != me ==> StepsBy(j, Calls, trace) == StepsBy(j, Calls, old(trace))
    }

    twostate predicate Progressed(me: nat, calls: nat)
      reads this
    {
      Advanced(me, calls, 0)
    }

    /** Other processes take any number of steps; this process may be killed. */
    method Pause(me: nat) returns (killed: bool)
      requires Valid()
      modifies this
      ensures Progressed(me, 0)
      ensures if killed then AgentOf(world, me).Idle? else AgentOf(world, me) == AgentOf(old(world), me)
    {
      var steps: nat := *;
      while steps > 0
        invariant Progressed(me, 0) && AgentOf(world, me) == AgentOf(old(world), me)
      {
        var a: Action := *;
        if Enabled(world, a) && (Actor(a).None? || Actor(a).value !in slots + {me}) {
          OnlyActorMoves(world, a);
          Do(a);
        }
        steps := steps - 1;
      }
      killed := *;
      if killed {
        OnlyActorMoves(world, Crash(me));
        Do(Crash(me));
      }
    }

    /** Takes one own step. */
    method Step(me: nat, a: Action, ghost next: Agent)
      requires Valid() && Enabled(world, a) && Actor(a) == Some(me)
      requires AgentOf(Apply(world, a), me) == next
      modifies this
      ensures Advanced(me, if a.Start? then 1 else 0, if a.ReserveFor? then 1 else 0)
      ensures AgentOf(world, me) == next && world == Apply(old(world), a) && trace == old(trace) + [a]
    {
      OthersStay(world, a, me);
      Do(a);
    }

    /** Takes one own step; then other processes act and this one may be killed. */
    method Perform(me: nat, a: Action, ghost next: Agent) returns (killed: bool)
      requires Valid() && Enabled(world, a) && Actor(a) == Some(me)
      requires AgentOf(Apply(world, a), me) == next
      modifies this
      ensures Advanced(me, if a.Start? then 1 else 0, if a.ReserveFor? then 1 else 0)
      ensures AgentOf(world, me) == if killed then Idle else next
      ensures old(trace) + [a] <= trace
    {
      Step(me, a, next);
      killed := Pause(me);
    }

    // ---- The calls the engine makes ----

    /** Loads the attempt this event already owns, if any. */
    method LoadAttempt(me: nat, event: EventId) returns (killed: bool)
      requires Valid() && event in world.orders && AgentOf(world, me).Idle?
      modifies this
      ensures Progressed(me, 0)
      ensures killed ==> AgentOf(world, me).Idle?
      ensures !killed ==> AgentOf(world, me) == LoadedAgent(old(world), event)
    {
      killed := Perform(me, Load(me, event), AgentOf(DoLoad(world, me, event), me));
    }

    /** Reserves after a quote; the outcome decides the answer. */
    method ReservePayment(me: nat, event: EventId, hash: PaymentHash, principal: nat)
      returns (killed: bool, outcome: Result<A.ReservationOutcome, A.AccountingError>, ghost at: nat)
      requires Valid() && event in world.orders && AgentOf(world, me).Idle?
      modifies this
      ensures Advanced(me, 0, 1) && WantsBy(me, trace) == WantsBy(me, old(trace)) + [Want(event, hash, principal)]
      ensures outcome == ReservationAnswer(old(world), event, hash, principal, at)
      ensures AgentOf(world, me) == if killed then Idle else AfterReserve(event, outcome)
    {
      var now: nat := *;
      at := now;
      var order := world.orders[event];
      outcome := A.Reserve(world.accounts, world.grants, event, hash, order.connection, order.revision, principal, now).1;
      StepReserve(me, event, hash, principal, now, AfterReserve(event, outcome));
      ghost var reservedAt := trace;
      killed := Pause(me);
      SameWants(me, reservedAt, trace);
    }

    method StepReserve(me: nat, event: EventId, hash: PaymentHash, principal: nat, now: nat, ghost next: Agent)
      requires Valid() && event in world.orders && AgentOf(world, me).Idle?
      requires AgentOf(Apply(world, ReserveFor(me, event, hash, principal, now)), me) == next
      modifies this
      ensures Advanced(me, 0, 1) && WantsBy(me, trace) == WantsBy(me, old(trace)) + [Want(event, hash, principal)]
      ensures AgentOf(world, me) == next
    {
      Step(me, ReserveFor(me, event, hash, principal, now), next);
      assert trace[..|trace| - 1] == old(trace);
    }

    /** Asks the wallet for the status of the attempt's hash; the answer obeys the wallet contract. */
    method AskStatus(me: nat) returns (killed: bool, reply: Result<Status, HostErrorKind>)
      requires Valid() && AgentOf(world, me).Loaded?
      requires var snap := AgentOf(world, me).snap;
               !snap.legacyAmbiguous && !snap.state.Failed? && !MustResumeBeforeStatus(snap)
      modifies this
      ensures Progressed(me, 0)
      ensures AgentOf(world, me) == if killed then Idle
                                    else AfterInquiry(AgentOf(old(world), me).event, AgentOf(old(world), me).snap, reply)
    {
      reply := *;
      if !StatusContract(world.wallet, AgentOf(world, me).snap.hash, reply) {
        reply := Err(Unavailable);
      }
      killed := Perform(me, Inquire(me, reply), AfterInquiry(AgentOf(world, me).event, AgentOf(world, me).snap, reply));
    }

    /** The reconciler's status query. */
    method ReviewAttempt(me: nat) returns (killed: bool, reply: Result<Status, HostErrorKind>)
      requires Valid() && AgentOf(world, me).Reviewing? && !MustResumeBeforeStatus(AgentOf(world, me).snap)
      modifies this
      ensures Progressed(me, 0)
      ensures AgentOf(world, me) == if killed then Idle else AfterReview(AgentOf(old(world), me).snap, reply)
    {
      reply := *;
      if !StatusContract(world.wallet, AgentOf(world, me).snap.hash, reply) {
        reply := Err(Unavailable);
      }
      killed := Perform(me, ReviewStatus(me, reply), AfterReview(AgentOf(world, me).snap, reply));
    }

    /** Rechecks that the exact connection revision is active. */
    method EnsureActive(me: nat) returns (killed: bool, active: bool)
      requires Valid() && AgentOf(world, me).Checked?
      modifies this
      ensures Progressed(me, 0)
      ensures active <==> RowActive(old(world), AgentOf(old(world), me).snap.connection, AgentOf(old(world), me).snap.revision)
      ensures !killed ==> (AgentOf(world, me).Idle? <==> !active || AgentOf(old(world), me).snap.state == A.Succeeded)
      ensures !AgentOf(world, me).Idle? ==> active
      ensures AgentOf(world, me).Idle?
              || (!killed && AgentOf(world, me) == Cleared(AgentOf(old(world), me).event, AgentOf(old(world), me).snap)
                  && !AgentOf(old(world), me).snap.state.Succeeded?)
    {
      var agent := AgentOf(world, me);
      active := RevisionActive(world, agent.snap.connection, agent.snap.revision);
      killed := Perform(me, Authorize(me), AgentOf(DoAuthorize(world, me, agent.event, agent.snap), me));
    }

    /** Writes the durable marker unless the snapshot already carries it. */
    method MarkInitiated(me: nat) returns (killed: bool)
      requires Valid() && AgentOf(world, me).Cleared?
      modifies this
      ensures Progressed(me, 0)
      ensures AgentOf(world, me).Idle?
              || (!killed && AgentOf(world, me) == Armed(AgentOf(old(world), me).event, AgentOf(old(world), me).snap))
    {
      var now: nat := *;
      var agent := AgentOf(world, me);
      killed := Perform(me, Mark(me, now), AgentOf(DoMark(world, me, agent.event, agent.snap, now), me));
    }

    /** Crosses the host boundary. */
    method StartPayment(me: nat) returns (killed: bool, reply: Result<Status, HostErrorKind>)
      requires Valid() && AgentOf(world, me).Armed? && AgentOf(world, me).event in world.orders
      modifies this
      ensures Progressed(me, 1)
      ensures AgentOf(world, me) == if killed then Idle
                                    else AfterStart(AgentOf(old(world), me).event, AgentOf(old(world), me).snap.hash, reply)
    {
      var key := AgentOf(world, me).event;
      var phase: Phase;
      reply, phase := *, *;
      if !StartContract(PhaseOf(world, key), reply, phase) {
        reply := Err(TimedOut);
        phase := if key in world.wallet then world.wallet[key].phase else Called;
      }
      killed := Perform(me, Start(me, reply, phase), AfterStart(key, AgentOf(world, me).snap.hash, reply));
    }

    /** Records a reported status in the payment tables. */
    method RecordReported(me: nat) returns (killed: bool, recorded: bool)
      requires Valid() && AgentOf(world, me).Reported?
      modifies this
      ensures Progressed(me, 0)
      ensures var agent := AgentOf(old(world), me);
              && AgentOf(world, me) == (if killed then Idle else AfterRecord(agent.event, agent.status, recorded))
              && (recorded ==> OutcomeRecorded(world, agent.hash, agent.status))
      ensures Did(me, RecordsIt, old(trace), trace)
    {
      var now: nat := *;
      var agent := AgentOf(world, me);
      recorded := RecordStatus(world, agent.hash, agent.status, now).1.Ok?;
      RunKeepsRecords(start, trace);
      ReportedStep(world, me, now);
      Step(me, Record(me, now), AgentOf(Apply(world, Record(me, now)), me));
      ghost var recordedAt := trace;
      killed := Pause(me);
      OutcomeLasts(start, recordedAt, trace, agent.hash, agent.status);
      StepIsDone(me, RecordsIt, old(trace), trace, Record(me, now));
    }

    /** Records that the outcome of a call is not known. */
    method RecordAmbiguous(me: nat) returns (killed: bool, recorded: bool, ghost at: nat)
      requires Valid() && AgentOf(world, me).Uncertain?
      modifies this
      ensures Progressed(me, 0) && AgentOf(world, me).Idle?
      ensures old(trace) + [RecordUncertain(me, at)] <= trace
      ensures recorded <==> A.MarkPending(old(world).accounts, AgentOf(old(world), me).hash, at).1.Ok?
    {
      var now: nat := *;
      at := now;
      recorded := RecordStatus(world, AgentOf(world, me).hash, Unknown, now).1.Ok?;
      killed := Perform(me, RecordUncertain(me, now), Idle);
    }

    /** Gives back an unmarked reservation after an external status. */
    method ReleaseReservation(me: nat) returns (killed: bool, ghost at: nat)
      requires Valid() && AgentOf(world, me).Refused?
      modifies this
      ensures Progressed(me, 0) && old(trace) + [Release(me, at)] <= trace
      ensures !killed ==> (AgentOf(world, me).Answering? <==>
                             A.ReleaseUninitiated(old(world).accounts, AgentOf(old(world), me).hash, at).1.Ok?)
      ensures AgentOf(world, me).Idle?
              || (!killed && AgentOf(world, me) == Answering(AgentOf(old(world), me).event, DeclinedAnswer))
    {
      var now: nat := *;
      at := now;
      var agent := AgentOf(world, me);
      killed := Perform(me, Release(me, now), AgentOf(DoRelease(world, me, agent.event, agent.hash, now), me));
    }

    /** Leaves the current attempt. */
    method Leave(me: nat)
      requires Valid()
      modifies this
      ensures Progressed(me, 0) && AgentOf(world, me).Idle?
    {
      var _ := Perform(me, Crash(me), Idle);
    }

    // ---- The engine ----

    /**
     Quotes and reserves a new payment, or continues the attempt this event already owns: an owned attempt
     is never quoted or reserved again.
     */
    method ExecutePayment(me: nat, event: EventId) returns (r: Disposition, ghost ended: Ended)
      requires Valid() && event in world.orders && AgentOf(world, me).Idle?
      modifies this
      ensures exists calls, reservations :: calls <= 1 && reservations <= 1 && Advanced(me, calls, reservations)
      ensures event in old(world).accounts.attempts ==> Progressed(me, 0) || Progressed(me, 1)
      ensures ended.ForeignAttempt? ==> LoadedAgent(old(world), event).Answering?
      ensures r.Killed? || r == AnswerTo(ended)
      ensures r.RespondPaid? ==> AgentOf(world, me) == Answering(event, PaidAnswer)
      ensures r.RespondPaid? ==> ended.Concluded? && ended.status.Settled?
                                 && exists hash :: OutcomeRecorded(world, hash, ended.status)
      ensures r.RetryLater? || r.HandToApplication? ==> !AgentOf(world, me).Answering?
    {
      ghost var owned := event in world.accounts.attempts;
      var readable: bool := *;
      if !readable {
        assert Advanced(me, 0, 0);
        return HandToApplication, Unreadable;
      }
      var killed := LoadAttempt(me, event);
      if killed {
        assert Advanced(me, 0, 0);
        return Killed, Unreadable;
      }
      if AgentOf(world, me).Answering? {
        assert Advanced(me, 0, 0);
        return RespondDeclined, ForeignAttempt;
      }
      if AgentOf(world, me).Loaded? {
        r, ended := ContinuePayment(me);
        assert Advanced(me, 0, 0) || Advanced(me, 1, 0);
        return;
      }
      assert !owned && Advanced(me, 0, 0);
      ghost var quoted;
      r, ended, quoted := QuoteAndReserve(me, event);
      assert Advanced(me, 0, 0) || Advanced(me, 1, 0) || Advanced(me, 0, 1) || Advanced(me, 1, 1);
    }

    /** A first attempt: quote, reserve, and go on with the reservation. */
    method QuoteAndReserve(me: nat, event: EventId)
      returns (r: Disposition, ghost ended: Ended, ghost quoted: Option<(PaymentHash, nat)>)
      requires Valid() && event in world.orders && AgentOf(world, me).Idle?
      modifies this
      ensures Advanced(me, 0, 0) || Advanced(me, 0, 1) || Advanced(me, 1, 1)
      ensures WantsBy(me, trace) == WantsBy(me, old(trace)) || WantsQuoted(me, event, quoted, old(trace), trace)
      ensures r.Killed? || r == AnswerTo(ended)
      ensures ended.UnusableInvoice? <==> |old(world).orders[event].invoice| == 0 || |old(world).orders[event].invoice| > 16_384
      ensures !ended.ForeignAttempt?
      ensures r.RespondPaid? ==> AgentOf(world, me) == Answering(event, PaidAnswer)
      ensures r.RespondPaid? ==> ended.Concluded? && ended.status.Settled?
                                 && exists hash :: OutcomeRecorded(world, hash, ended.status)
      ensures r.RetryLater? || r.HandToApplication? ==> !AgentOf(world, me).Answering?
    {
      var invoice := world.orders[event].invoice;
      if |invoice| == 0 || |invoice| > MAX_INVOICE_BYTES {
        return RespondDeclined, UnusableInvoice, None;
      }
      var quote: Result<(PaymentHash, nat), HostErrorKind> := *;
      match quote {
        case Err(kind) =>
          ended, quoted := QuoteFailed(kind), None;
          r := if kind.Unavailable? || kind.TimedOut? || kind.AlreadyInProgress? then RetryLater
               else if kind.Cancelled? then HandToApplication else RespondDeclined;
        case Ok((hash, principalMsat)) =>
          quoted := Some((hash, principalMsat));
          var principal := A.MsatToSatCeil(principalMsat);
          if principal.None? || principal.value == 0 {
            return RespondDeclined, NotReserved(A.InvalidAmount), quoted;
          }
          A.MsatRoundsUp(principalMsat);
          r, ended := ReserveAndContinue(me, event, hash, principal.value);
      }
    }

    /** Reserves the quoted payment and goes on with the reservation. */
    method ReserveAndContinue(me: nat, event: EventId, hash: PaymentHash, principal: nat) returns (r: Disposition, ghost ended: Ended)
      requires Valid() && event in world.orders && AgentOf(world, me).Idle?
      modifies this
      ensures Advanced(me, 0, 1) || Advanced(me, 1, 1)
      ensures WantsBy(me, trace) == WantsBy(me, old(trace)) + [Want(event, hash, principal)]
      ensures r.Killed? || r == AnswerTo(ended)
      ensures !ended.UnusableInvoice? && !ended.ForeignAttempt?
      ensures ended.NotReserved? ==> exists now: nat :: ReservationAnswer(old(world), event, hash, principal, now) == Err(ended.error)
      ensures r.RespondPaid? ==> AgentOf(world, me) == Answering(event, PaidAnswer)
      ensures r.RespondPaid? ==> ended.Concluded? && ended.status.Settled?
                                 && exists h :: OutcomeRecorded(world, h, ended.status)
      ensures r.RetryLater? || r.HandToApplication? ==> !AgentOf(world, me).Answering?
    {
      ghost var at;
      var killed, outcome;
      killed, outcome, at := ReservePayment(me, event, hash, principal);
      assert outcome == ReservationAnswer(old(world), event, hash, principal, at);
      if killed {
        return Killed, Unreadable;
      }
      if AgentOf(world, me).Loaded? {
        ghost var reservedAt := trace;
        r, ended := ContinuePayment(me);
        SameWants(me, reservedAt, trace);
      } else {
        ended := if outcome.Err? then NotReserved(outcome.error) else TrackedElsewhere;
        r := if outcome == Err(A.ConnectionUnavailable) then RejectClaim
             else if AgentOf(world, me).Answering? then RespondDeclined else HandToApplication;
      }
    }

    /**
     Continues a durable attempt without quoting it again. The wallet is called at most once, and a
     success response is prepared only after the settlement was recorded.
     */
    method ContinuePayment(me: nat) returns (r: Disposition, ghost ended: Ended)
      requires Valid() && AgentOf(world, me).Loaded? && AgentOf(world, me).event in world.orders
      modifies this
      ensures Progressed(me, 0) || Progressed(me, 1)
      ensures r.Killed? || r == AnswerTo(ended)
      ensures var snap := AgentOf(old(world), me).snap;
              && (snap.legacyAmbiguous ==> Progressed(me, 0) && ended.LegacyDebit?)
              && (snap.state == A.Failed ==> Progressed(me, 0))
              && (ended.ReplayedFailure? ==> snap.state == A.Failed)
              && (ended.ExternalStatus? ==> snap.initiatedAt.None?)
              && (ended.StatusUnavailable? || ended.ExternalStatus? ==> Progressed(me, 0))
              && (ended.CallAmbiguous? ==> Progressed(me, 1))
      ensures ended.ExternalStatus? ==> Did(me, ReleasesIt, old(trace), trace)
                                        && (r.RespondDeclined? ==>
                                              AgentOf(world, me) == Answering(AgentOf(old(world), me).event, DeclinedAnswer))
      ensures ended.CallAmbiguous? ==> Did(me, RecordsDoubt, old(trace), trace)
      ensures ended.Concluded? ==> Did(me, RecordsIt, old(trace), trace)
      ensures r.RespondPaid? ==> AgentOf(world, me) == Answering(AgentOf(old(world), me).event, PaidAnswer)
      ensures r.RespondPaid? ==>
                ended.Concluded? && ended.status.Settled?
                && OutcomeRecorded(world, AgentOf(old(world), me).snap.hash, ended.status)
      ensures r.RetryLater? || r.HandToApplication? ==> !AgentOf(world, me).Answering?
      ensures !ended.UnusableInvoice? && !ended.NotReserved? && !ended.ForeignAttempt?
    {
      var event, snap := AgentOf(world, me).event, AgentOf(world, me).snap;
      var killed: bool;
      if snap.legacyAmbiguous {
        killed := Perform(me, Settle(me), Answering(event, DeclinedAnswer));
        return if killed then Killed else RespondDeclined, LegacyDebit;
      }
      if snap.state == A.Failed {
        r, ended := ReplayFailure(me);
        return;
      }
      if MustResumeBeforeStatus(snap) {
        r, ended := ResumeMarked(me);
      } else {
        ghost var answer;
        r, ended, answer := AskAndContinue(me);
      }
    }

    /** A durable marker without a recorded status: resume by idempotency key before asking by hash. */
    method ResumeMarked(me: nat) returns (r: Disposition, ghost ended: Ended)
      requires Valid() && AgentOf(world, me).Loaded? && AgentOf(world, me).event in world.orders
      requires !AgentOf(world, me).snap.legacyAmbiguous && MustResumeBeforeStatus(AgentOf(world, me).snap)
      modifies this
      ensures Progressed(me, 0) || Progressed(me, 1)
      ensures r.Killed? || r == AnswerTo(ended)
      ensures !ended.LegacyDebit? && !ended.ReplayedFailure? && !ended.ExternalStatus? && !ended.StatusUnavailable?
      ensures ended.CallAmbiguous? ==> Did(me, RecordsDoubt, old(trace), trace)
      ensures ended.Concluded? ==> Did(me, RecordsIt, old(trace), trace)
      ensures ended.CallAmbiguous? ==> Progressed(me, 1)
      ensures r.RespondPaid? ==> AgentOf(world, me) == Answering(AgentOf(old(world), me).event, PaidAnswer)
      ensures r.RespondPaid? ==>
                ended.Concluded? && ended.status.Settled?
                && OutcomeRecorded(world, AgentOf(old(world), me).snap.hash, ended.status)
      ensures r.RetryLater? || r.HandToApplication? ==> !AgentOf(world, me).Answering?
      ensures !ended.UnusableInvoice? && !ended.NotReserved? && !ended.ForeignAttempt?
    {
      var killed := Perform(me, ResumeBlind(me), Checked(AgentOf(world, me).event, AgentOf(world, me).snap));
      if killed {
        return Killed, Unreadable;
      }
      r, ended := AuthorizeAndStart(me);
    }

    /** Asks the wallet for the attempt's status first; only an unknown payment goes on to a call. */
    method AskAndContinue(me: nat)
      returns (r: Disposition, ghost ended: Ended, ghost answer: Result<Status, HostErrorKind>)
      requires Valid() && AgentOf(world, me).Loaded? && AgentOf(world, me).event in world.orders
      requires var snap := AgentOf(world, me).snap;
               !snap.legacyAmbiguous && !snap.state.Failed? && !MustResumeBeforeStatus(snap)
      modifies this
      ensures Progressed(me, 0) || Progressed(me, 1)
      ensures r.Killed? || r == AnswerTo(ended)
      ensures !ended.LegacyDebit? && !ended.ReplayedFailure?
      ensures ended.ExternalStatus? ==> AgentOf(old(world), me).snap.initiatedAt.None?
      ensures ended.StatusUnavailable? || ended.ExternalStatus? ==> Progressed(me, 0)
      ensures ended.StatusUnavailable? ==> answer.Err?
      ensures ended.ExternalStatus? ==> answer.Ok? && answer.value != Unknown
      ensures ended.Concluded? && answer != Ok(Unknown) ==> answer == Ok(ended.status)
      ensures answer != Ok(Unknown) ==> Progressed(me, 0)
      ensures ended.CallAmbiguous? ==> Progressed(me, 1)
      ensures ended.ExternalStatus? ==> Did(me, ReleasesIt, old(trace), trace)
                                        && (r.RespondDeclined? ==>
                                              AgentOf(world, me) == Answering(AgentOf(old(world), me).event, DeclinedAnswer))
      ensures ended.CallAmbiguous? ==> Did(me, RecordsDoubt, old(trace), trace)
      ensures ended.Concluded? ==> Did(me, RecordsIt, old(trace), trace)
      ensures r.RespondPaid? ==> AgentOf(world, me) == Answering(AgentOf(old(world), me).event, PaidAnswer)
      ensures r.RespondPaid? ==>
                ended.Concluded? && ended.status.Settled?
                && OutcomeRecorded(world, AgentOf(old(world), me).snap.hash, ended.status)
      ensures r.RetryLater? || r.HandToApplication? ==> !AgentOf(world, me).Answering?
      ensures !ended.UnusableInvoice? && !ended.NotReserved? && !ended.ForeignAttempt?
    {
      var inTime: bool := *;
      if !inTime {
        return RetryLater, OutOfTime, Err(TimedOut);
      }
      var killed, reply := AskStatus(me);
      answer := reply;
      if killed {
        return Killed, Unreadable, answer;
      }
      if AgentOf(world, me).Idle? {
        return RetryLater, StatusUnavailable, answer;
      }
      r, ended := ActOnStatus(me);
    }

    /** Gives the reservation back, records the reported status, or goes on to the call. */
    method ActOnStatus(me: nat) returns (r: Disposition, ghost ended: Ended)
      requires Valid() && (AgentOf(world, me).Refused? || AgentOf(world, me).Reported? || AgentOf(world, me).Checked?)
      requires AgentOf(world, me).event in world.orders
      modifies this
      ensures Progressed(me, 0) || (Progressed(me, 1) && AgentOf(old(world), me).Checked?)
      ensures r.Killed? || r == AnswerTo(ended)
      ensures !ended.LegacyDebit? && !ended.ReplayedFailure? && !ended.StatusUnavailable?
      ensures !ended.UnusableInvoice? && !ended.NotReserved? && !ended.ForeignAttempt?
      ensures ended.ExternalStatus? ==> AgentOf(old(world), me).Refused? && Progressed(me, 0)
      ensures ended.CallAmbiguous? ==> Progressed(me, 1)
      ensures ended.ExternalStatus? ==> Did(me, ReleasesIt, old(trace), trace)
                                        && (r.RespondDeclined? ==>
                                              AgentOf(world, me) == Answering(AgentOf(old(world), me).event, DeclinedAnswer))
      ensures ended.CallAmbiguous? ==> Did(me, RecordsDoubt, old(trace), trace)
      ensures ended.Concluded? ==> Did(me, RecordsIt, old(trace), trace)
      ensures ended.Concluded? ==> !AgentOf(old(world), me).Refused?
      ensures ended.Concluded? && AgentOf(old(world), me).Reported? ==> ended.status == AgentOf(old(world), me).status
      ensures r.RespondPaid? ==> AgentOf(world, me) == Answering(AgentOf(old(world), me).event, PaidAnswer)
      ensures r.RespondPaid? ==>
                var agent := AgentOf(old(world), me);
                ended.Concluded? && ended.status.Settled?
                && OutcomeRecorded(world, if agent.Checked? then agent.snap.hash else agent.hash, ended.status)
      ensures r.RetryLater? || r.HandToApplication? ==> !AgentOf(world, me).Answering?
    {
      if AgentOf(world, me).Refused? {
        r, ended := DiscardExternal(me);
      } else if AgentOf(world, me).Reported? {
        r, ended := FinishPaymentStatus(me);
      } else {
        r, ended := AuthorizeAndStart(me);
      }
    }

    /** A status of a payment this attempt never started: the reservation is given back. */
    method DiscardExternal(me: nat) returns (r: Disposition, ghost ended: Ended)
      requires Valid() && AgentOf(world, me).Refused?
      modifies this
      ensures Progressed(me, 0) && ended.ExternalStatus? && Did(me, ReleasesIt, old(trace), trace)
      ensures r.Killed? || r == AnswerTo(ended)
      ensures AgentOf(world, me) == if r.RespondDeclined? then Answering(AgentOf(old(world), me).event, DeclinedAnswer) else Idle
      ensures !r.RespondPaid?
    {
      ghost var at;
      var killed;
      killed, at := ReleaseReservation(me);
      StepIsDone(me, ReleasesIt, old(trace), trace, Release(me, at));
      ended := ExternalStatus(AgentOf(world, me).Answering?);
      r := if killed then Killed else if AgentOf(world, me).Idle? then HandToApplication else RespondDeclined;
    }

    /** A recorded failure is answered again, if the authorization is still active. */
    method ReplayFailure(me: nat) returns (r: Disposition, ghost ended: Ended)
      requires Valid() && AgentOf(world, me).Loaded? && AgentOf(world, me).snap.state == A.Failed
      requires AgentOf(world, me).event in world.orders
      modifies this
      ensures Progressed(me, 0)
      ensures r.Killed? || r == AnswerTo(ended)
      ensures ended.Unreadable? || ended.Inactive? || ended.ReplayedFailure?
      ensures var order := old(world).orders[AgentOf(old(world), me).event];
              && (ended.Inactive? ==> !RowActive(old(world), order.connection, order.revision))
              && (ended.ReplayedFailure? ==> RowActive(old(world), order.connection, order.revision))
      ensures r.RetryLater? || r.HandToApplication? ==> !AgentOf(world, me).Answering?
    {
      var event := AgentOf(world, me).event;
      var refused := RefuseInactive(me, event);
      if refused.Some? {
        return refused.value, if refused.value == RejectClaim then Inactive else Unreadable;
      }
      var killed := Perform(me, Settle(me), Answering(event, DeclinedAnswer));
      return if killed then Killed else RespondDeclined, ReplayedFailure;
    }

    /** The tail of a continued payment: recheck authorization, write the marker, call the wallet. */
    method AuthorizeAndStart(me: nat) returns (r: Disposition, ghost ended: Ended)
      requires Valid() && AgentOf(world, me).Checked? && AgentOf(world, me).event in world.orders
      modifies this
      ensures Progressed(me, 0) || Progressed(me, 1)
      ensures r.Killed? || r == AnswerTo(ended)
      ensures ended.Unreadable? || ended.Inactive? || ended.SettledSnapshot? || ended.OutOfTime? || ended.MarkRefused?
              || ended.CallAmbiguous? || ended.Concluded?
      ensures var snap := AgentOf(old(world), me).snap;
              && (snap.state == A.Succeeded ==> Progressed(me, 0))
              && (ended.SettledSnapshot? ==> snap.state == A.Succeeded && Progressed(me, 0))
              && (ended.MarkRefused? ==> Progressed(me, 0))
              && (ended.OutOfTime? ==> Progressed(me, 0))
              && (ended.CallAmbiguous? || ended.Concluded? ==> Progressed(me, 1))
              && (ended.CallAmbiguous? ==> Did(me, RecordsDoubt, old(trace), trace))
              && (ended.Concluded? ==> Did(me, RecordsIt, old(trace), trace))
              && (r.RejectClaim? && Progressed(me, 0) ==> !RowActive(old(world), snap.connection, snap.revision))
              && (Progressed(me, 1) ==> RowActive(old(world), snap.connection, snap.revision))
      ensures r.RespondPaid? ==> AgentOf(world, me) == Answering(AgentOf(old(world), me).event, PaidAnswer)
      ensures r.RespondPaid? ==>
                ended.Concluded? && ended.status.Settled?
                && OutcomeRecorded(world, AgentOf(old(world), me).snap.hash, ended.status)
      ensures r.RetryLater? || r.HandToApplication? ==> !AgentOf(world, me).Answering?
    {
      var readable: bool := *;
      if !readable {
        return HandToApplication, Unreadable;
      }
      var killed, active := EnsureActive(me);
      if AgentOf(world, me).Idle? {
        ended := if active then SettledSnapshot else Inactive;
        r := if killed then Killed else if active then RetryLater else RejectClaim;
        return r, if killed then Unreadable else ended;
      }
      r, ended := MarkAndStart(me);
    }

    /** Writes the marker of a cleared payment and calls the wallet, each only while there is time. */
    method MarkAndStart(me: nat) returns (r: Disposition, ghost ended: Ended)
      requires Valid() && AgentOf(world, me).Cleared? && AgentOf(world, me).event in world.orders
      modifies this
      ensures Progressed(me, 0) || Progressed(me, 1)
      ensures r.Killed? || r == AnswerTo(ended)
      ensures ended.Unreadable? || ended.Inactive? || ended.OutOfTime? || ended.MarkRefused? || ended.CallAmbiguous? || ended.Concluded?
      ensures ended.MarkRefused? ==> Progressed(me, 0)
      ensures ended.OutOfTime? ==> Progressed(me, 0)
      ensures r.RejectClaim? || ended.CallAmbiguous? || ended.Concluded? ==> Progressed(me, 1)
      ensures ended.CallAmbiguous? ==> Did(me, RecordsDoubt, old(trace), trace)
      ensures ended.Concluded? ==> Did(me, RecordsIt, old(trace), trace)
      ensures r.RespondPaid? ==> AgentOf(world, me) == Answering(AgentOf(old(world), me).event, PaidAnswer)
      ensures r.RespondPaid? ==>
                ended.Concluded? && ended.status.Settled?
                && OutcomeRecorded(world, AgentOf(old(world), me).snap.hash, ended.status)
      ensures r.RetryLater? || r.HandToApplication? ==> !AgentOf(world, me).Answering?
    {
      var snap := AgentOf(world, me).snap;
      var markInTime: bool := *;
      if !snap.WasInitiated() && !markInTime {
        return RetryLater, OutOfTime;
      }
      var killed := MarkInitiated(me);
      if AgentOf(world, me).Idle? {
        return if killed then Killed else HandToApplication, if killed then Unreadable else MarkRefused;
      }
      var startInTime: bool := *;
      if !startInTime {
        return RetryLater, OutOfTime;
      }
      ghost var answer;
      r, ended, answer := StartAndFinish(me);
    }

    /** The wallet call of an armed process and what its answer leads to. */
    method StartAndFinish(me: nat)
      returns (r: Disposition, ghost ended: Ended, ghost answer: Result<Status, HostErrorKind>)
      requires Valid() && AgentOf(world, me).Armed? && AgentOf(world, me).event in world.orders
      modifies this
      ensures Progressed(me, 1)
      ensures r.Killed? || r == AnswerTo(ended)
      ensures ended.Unreadable? || ended.Inactive? || ended.CallAmbiguous? || ended.Concluded?
      ensures ended.CallAmbiguous? ==> Did(me, RecordsDoubt, old(trace), trace)
      ensures ended.Concluded? ==> Did(me, RecordsIt, old(trace), trace)
      ensures ended.CallAmbiguous? ==> answer.Err? && answer.error !in {HostErrorKind.Rejected, NotFound}
      ensures ended.Concluded? ==>
                if answer.Ok? then ended.status == answer.value
                else ended.status == Status.Failed && answer.error in {HostErrorKind.Rejected, NotFound}
      ensures r.RespondPaid? ==> AgentOf(world, me) == Answering(AgentOf(old(world), me).event, PaidAnswer)
      ensures r.RespondPaid? ==>
                ended.Concluded? && ended.status.Settled?
                && OutcomeRecorded(world, AgentOf(old(world), me).snap.hash, ended.status)
      ensures r.RetryLater? || r.HandToApplication? ==> !AgentOf(world, me).Answering?
    {
      var killed, reply := StartPayment(me);
      answer := reply;
      if killed {
        return Killed, Unreadable, answer;
      }
      if AgentOf(world, me).Uncertain? {
        var recorded;
        ghost var before, at := trace, 0;
        killed, recorded, at := RecordAmbiguous(me);
        StepIsDone(me, RecordsDoubt, before, trace, RecordUncertain(me, at));
        return if killed then Killed else if recorded then RetryLater else HandToApplication, CallAmbiguous(recorded), answer;
      }
      r, ended := FinishPaymentStatus(me);
    }

    /** Rechecks the event's exact authorization before an answer is disclosed; otherwise leaves the attempt. */
    method RefuseInactive(me: nat, event: EventId) returns (stop: Option<Disposition>)
      requires Valid() && event in world.orders
      modifies this
      ensures Progressed(me, 0)
      ensures stop.None? ==> world == old(world) && trace == old(trace)
                             && RowActive(world, world.orders[event].connection, world.orders[event].revision)
      ensures stop.Some? ==> AgentOf(world, me).Idle? && (stop.value.HandToApplication? || stop.value.RejectClaim?)
      ensures stop.Some? && stop.value.RejectClaim? ==>
                !RowActive(old(world), old(world).orders[event].connection, old(world).orders[event].revision)
    {
      var readable: bool := *;
      if readable && RevisionActive(world, world.orders[event].connection, world.orders[event].revision) {
        return None;
      }
      Leave(me);
      return Some(if readable then RejectClaim else HandToApplication);
    }

    /**
     Records what the wallet reported, then prepares the response: a success only when the settlement and
     its notification were recorded and the authorization is still active.
     */
    method FinishPaymentStatus(me: nat) returns (r: Disposition, ghost ended: Ended)
      requires Valid() && AgentOf(world, me).Reported? && AgentOf(world, me).event in world.orders
      modifies this
      ensures Progressed(me, 0)
      ensures r.Killed? || r == AnswerTo(ended)
      ensures ended.Unreadable? || ended.Inactive? || ended.Concluded?
      ensures var agent := AgentOf(old(world), me);
              && (ended.Concluded? ==> ended.status == agent.status && Did(me, RecordsIt, old(trace), trace))
              && (ended.Inactive? || (ended.Concluded? && ended.recorded) ==> OutcomeRecorded(world, agent.hash, agent.status))
              && (ended.Inactive? ==> agent.status.Settled?)
      ensures r.RespondPaid? <==> AgentOf(world, me) == Answering(AgentOf(old(world), me).event, PaidAnswer)
      ensures r.RespondPaid? ==>
                var order := world.orders[AgentOf(old(world), me).event];
                RowActive(world, order.connection, order.revision)
      ensures r.RetryLater? || r.HandToApplication? || r.RejectClaim? ==> !AgentOf(world, me).Answering?
    {
      var agent := AgentOf(world, me);
      var killed, recorded := RecordReported(me);
      if killed {
        return Killed, Unreadable;
      }
      ended := Concluded(agent.status, recorded, true);
      if !recorded {
        return HandToApplication, ended;
      }
      match agent.status {
        case Unknown => r := RetryLater;
        case InFlight => r := RetryLater;
        case Failed => r := RespondDeclined;
        case Settled(_, _, _) =>
          var stop, notified := DiscloseRecorded(me, agent.event, agent.hash, agent.status);
          r := if stop.Some? then stop.value else RespondPaid;
          ended := if !notified then Concluded(agent.status, true, false)
                   else if stop.None? then ended else if stop == Some(RejectClaim) then Inactive else Unreadable;
      }
    }

    /** A recorded settlement is disclosed when its notification was recorded and the authorization is active. */
    method DiscloseRecorded(me: nat, event: EventId, hash: PaymentHash, status: Status) returns (stop: Option<Disposition>, notified: bool)
      requires Valid() && event in world.orders && OutcomeRecorded(world, hash, status)
      modifies this
      ensures Progressed(me, 0) && OutcomeRecorded(world, hash, status)
      ensures stop.None? ==> notified && AgentOf(world, me) == AgentOf(old(world), me)
                             && RowActive(world, world.orders[event].connection, world.orders[event].revision)
      ensures stop.Some? ==> AgentOf(world, me).Idle? && (stop.value.HandToApplication? || (notified && stop.value.RejectClaim?))
    {
      notified := *;
      if notified {
        stop := RefuseRecorded(me, event, hash, status);
      } else {
        LeaveRecorded(me, hash, status);
        stop := Some(HandToApplication);
      }
    }

    /** The recheck before a recorded outcome is disclosed. */
    method RefuseRecorded(me: nat, event: EventId, hash: PaymentHash, status: Status) returns (stop: Option<Disposition>)
      requires Valid() && event in world.orders && OutcomeRecorded(world, hash, status)
      modifies this
      ensures Progressed(me, 0) && OutcomeRecorded(world, hash, status)
      ensures stop.None? ==> AgentOf(world, me) == AgentOf(old(world), me)
                             && RowActive(world, world.orders[event].connection, world.orders[event].revision)
      ensures stop.Some? ==> AgentOf(world, me).Idle? && (stop.value.HandToApplication? || stop.value.RejectClaim?)
    {
      ghost var recordedAt := trace;
      stop := RefuseInactive(me, event);
      OutcomeLasts(start, recordedAt, trace, hash, status);
    }

    /** Leaves an attempt whose outcome is recorded. */
    method LeaveRecorded(me: nat, hash: PaymentHash, status: Status)
      requires Valid() && OutcomeRecorded(world, hash, status)
      modifies this
      ensures Progressed(me, 0) && AgentOf(world, me).Idle? && OutcomeRecorded(world, hash, status)
    {
      ghost var recordedAt := trace;
      Leave(me);
      OutcomeLasts(start, recordedAt, trace, hash, status);
    }

    // ---- The reconciler ----

    /** One reviewed attempt: asked, recorded or released, and counted under the heading of its answer. */
    method ReconcileOne(me: nat, before: ReconciliationReport)
      returns (report: ReconciliationReport, ok: bool, ghost reply: Result<Status, HostErrorKind>)
      requires Valid() && AgentOf(world, me).Reviewing? && !MustResumeBeforeStatus(AgentOf(world, me).snap)
      modifies this
      ensures Progressed(me, 0)
      ensures ok ==> AgentOf(world, me).Idle? && report == Counted(before, AgentOf(old(world), me).snap, reply)
      ensures var snap := AgentOf(old(world), me).snap;
              && (ok && HeadingOf(snap, reply) in {SettledHeading, FailedHeading} ==> OutcomeRecorded(world, snap.hash, reply.value))
              && (ok && HeadingOf(snap, reply) == DiscardedHeading ==> Did(me, ReleasesIt, old(trace), trace))
      ensures report.interrupted == before.interrupted && report.needsRetry == before.needsRetry
    {
      var snap := AgentOf(world, me).snap;
      report := before.(examined := before.examined + 1);
      var killed, answer := ReviewAttempt(me);
      reply := answer;
      if killed {
        return report, false, reply;
      }
      var agent := AgentOf(world, me);
      if agent.Idle? {
        report := if answer.Err? then report.(deferred := report.deferred + 1) else report.(unresolved := report.unresolved + 1);
        return report, true, reply;
      }
      var done: bool;
      if agent.Refused? {
        done := DiscardReviewed(me);
        report := if done then report.(discarded := report.discarded + 1) else report;
      } else {
        done := RecordReviewed(me);
        report := if !done then report
                  else if agent.status.Settled? then report.(succeeded := report.succeeded + 1)
                  else report.(failed := report.failed + 1);
      }
      return report, done, reply;
    }

    method DiscardReviewed(me: nat) returns (done: bool)
      requires Valid() && AgentOf(world, me).Refused?
      modifies this
      ensures Progressed(me, 0) && (done ==> AgentOf(world, me).Idle?) && Did(me, ReleasesIt, old(trace), trace)
    {
      ghost var at;
      var killed;
      killed, at := ReleaseReservation(me);
      StepIsDone(me, ReleasesIt, old(trace), trace, Release(me, at));
      if AgentOf(world, me).Idle? {
        return false;
      }
      Leave(me);
      return true;
    }

    /** Records what the wallet reported of a reviewed attempt. */
    method RecordReviewed(me: nat) returns (done: bool)
      requires Valid() && AgentOf(world, me).Reported?
      modifies this
      ensures Progressed(me, 0)
      ensures done ==> AgentOf(world, me).Idle? && OutcomeRecorded(world, AgentOf(old(world), me).hash, AgentOf(old(world), me).status)
    {
      var agent := AgentOf(world, me);
      var killed, recorded := RecordReported(me);
      if killed || !recorded {
        return false;
      }
      LeaveRecorded(me, agent.hash, agent.status);
      return true;
    }

    method TakeSnapshot(me: nat, event: EventId)
      requires Valid() && AgentOf(world, me).Idle? && Loadable(world, event)
      modifies this
      ensures OnlyReads()
      ensures AgentOf(world, me) == Reviewing(old(world).accounts.attempts[event])
      ensures forall j :: j != me ==> AgentOf(world, j) == AgentOf(old(world), j)
    {
      Do(Review(me, event));
    }

    /** Takes the snapshots of one batch in a single transaction, one position each. */
    method LoadBatch(mine: seq<nat>, batch: seq<EventId>)
      requires Valid() && |mine| >= |batch|
      requires forall i, j :: 0 <= i < j < |mine| ==> mine[i] != mine[j]
      requires forall n :: 0 <= n < |batch| ==> AgentOf(world, mine[n]).Idle? && Loadable(world, batch[n])
      modifies this
      ensures OnlyReads() && forall e <- batch :: e in old(world).accounts.attempts
      ensures StillLoaded(mine, batch, old(world).accounts, 0)
    {
      ghost var accounts := world.accounts;
      var n := 0;
      assert forall e <- batch :: Loadable(world, e) by {
        assert forall k :: 0 <= k < |batch| ==> Loadable(world, batch[k]);
      }
      while n < |batch|
        invariant n <= |batch| && OnlyReads() && accounts == old(world).accounts
        invariant forall e <- batch :: Loadable(world, e)
        invariant forall k :: 0 <= k < n ==> AgentOf(world, mine[k]) == Reviewing(accounts.attempts[batch[k]])
        invariant forall k :: n <= k < |batch| ==> AgentOf(world, mine[k]).Idle?
        decreases |batch| - n
      {
        TakeSnapshot(mine[n], batch[n]);
        n := n + 1;
      }
    }

    /** A longer run that wrote no payment table and called and reserved nothing. */
    twostate predicate OnlyReads()
      reads this
    {
      && Valid() && start == old(start) && old(trace) <= trace && world.accounts == old(world).accounts
      && forall m: nat, kind :: StepsBy(m, kind, trace) == StepsBy(m, kind, old(trace))
    }

    /**
     One bounded reconciliation pass over the snapshots it loaded at its start. It never calls the wallet to
     start a payment, and a pass that ends normally counts every attempt it asked about under its heading.
     */
    method Reconcile(mine: seq<nat>, maxAttempts: nat, batch: seq<EventId>, hasAdditional: bool)
      returns (report: ReconciliationReport, error: Option<PassError>, ghost asked: seq<Asked>)
      requires Valid() && |mine| >= |batch| && |batch| <= maxAttempts && Own(mine)
      requires forall n :: 0 <= n < |batch| ==> AgentOf(world, mine[n]).Idle? && Loadable(world, batch[n])
      modifies this
      ensures CalledNothing(mine)
      ensures error == Some(InvalidBatchSize) <==> maxAttempts == 0 || maxAttempts > 100
      ensures error == Some(InvalidBatchSize) ==> world == old(world) && trace == old(trace)
      ensures forall e <- batch :: e in old(world).accounts.attempts
      ensures error.None? ==> PassReport(old(world).accounts, batch, asked, hasAdditional, report)
    {
      report, asked := ReconciliationReport(0, 0, 0, 0, 0, 0, false, false), [];
      assert forall e <- batch :: Loadable(world, e) by {
        assert forall k :: 0 <= k < |batch| ==> Loadable(world, batch[k]);
      }
      if maxAttempts == 0 || maxAttempts > MAX_PAYMENT_RECONCILIATION_BATCH {
        return report, Some(InvalidBatchSize), [];
      }
      var inTimeAtStart: bool := *;
      if !inTimeAtStart {
        PassBegins(world.accounts, batch);
        PassStops(world.accounts, batch, 0, [], 0, hasAdditional, report);
        return report.(interrupted := true, needsRetry := true), None, [];
      }
      LoadBatch(mine, batch);
      assert forall n :: 0 <= n < |mine| ==> StepsBy(mine[n], Calls, trace) == StepsBy(mine[n], Calls, old(trace));
      var ok;
      report, ok, asked := ReviewBatch(mine, batch, hasAdditional, world.accounts);
      error := if ok then None else Some(AccountingFailed);
    }

    /** Reviews the loaded snapshots, and decides whether another pass is needed. */
    method ReviewBatch(mine: seq<nat>, batch: seq<EventId>, hasAdditional: bool, ghost accounts: A.Accounts)
      returns (report: ReconciliationReport, ok: bool, ghost asked: seq<Asked>)
      requires Valid() && |mine| >= |batch| && Own(mine)
      requires forall e <- batch :: e in accounts.attempts
      requires StillLoaded(mine, batch, accounts, 0)
      modifies this
      ensures CalledNothing(mine)
      ensures ok ==> PassReport(accounts, batch, asked, hasAdditional, report)
    {
      var skipped: nat, end: SlotEnd;
      report, skipped, end, asked := ReviewSlots(mine, batch, accounts, hasAdditional);
      if end == CountedSlot {
        PassEnds(accounts, batch, asked, skipped, hasAdditional, report);
        report := report.(needsRetry := hasAdditional || skipped > 0 || report.unresolved != 0 || report.deferred != 0);
      }
      ok := end != FailedSlot;
    }

    /** One snapshot after another, until there is no time left or a ledger call fails. */
    method ReviewSlots(mine: seq<nat>, batch: seq<EventId>, ghost accounts: A.Accounts, ghost hasAdditional: bool)
      returns (report: ReconciliationReport, skipped: nat, end: SlotEnd, ghost asked: seq<Asked>)
      requires Valid() && |mine| >= |batch| && Own(mine)
      requires forall e <- batch :: e in accounts.attempts
      requires StillLoaded(mine, batch, accounts, 0)
      modifies this
      ensures CalledNothing(mine)
      ensures end == CountedSlot ==> PassAt(accounts, batch, |batch|, asked, skipped, report) && !report.interrupted
      ensures end == OutOfSlotTime ==> PassReport(accounts, batch, asked, hasAdditional, report)
    {
      report, skipped, asked := ReconciliationReport(0, 0, 0, 0, 0, 0, false, false), 0, [];
      PassBegins(accounts, batch);
      var n := 0;
      while n < |batch|
        invariant PassAt(accounts, batch, n, asked, skipped, report) && !report.interrupted
        invariant CalledNothing(mine) && StillLoaded(mine, batch, accounts, n)
        decreases |batch| - n
      {
        report, skipped, end, asked := ReviewSlot(mine, n, report, skipped, accounts, batch, asked, hasAdditional);
        if end != CountedSlot {
          return;
        }
        n := n + 1;
      }
      end := CountedSlot;
    }

    /** One snapshot of the pass: skipped, asked, or left because the time or a ledger call failed. */
    method ReviewSlot(mine: seq<nat>, n: nat, before: ReconciliationReport, unasked: nat, ghost accounts: A.Accounts,
                      ghost batch: seq<EventId>, ghost earlier: seq<Asked>, ghost hasAdditional: bool)
      returns (report: ReconciliationReport, skipped: nat, end: SlotEnd, ghost asked: seq<Asked>)
      requires Valid() && n < |mine| && Own(mine)
      requires n < |batch| && PassAt(accounts, batch, n, earlier, unasked, before) && !before.interrupted
      requires |mine| >= |batch| && StillLoaded(mine, batch, accounts, n)
      modifies this
      ensures CalledNothing(mine) && StillLoaded(mine, batch, accounts, n + 1)
      ensures end == CountedSlot ==> PassAt(accounts, batch, n + 1, asked, skipped, report) && !report.interrupted
      ensures end == OutOfSlotTime ==> PassReport(accounts, batch, asked, hasAdditional, report)
    {
      var snap := AgentOf(world, mine[n]).snap;
      report, skipped, asked := before, unasked, earlier;
      var inTime: bool := *;
      if MustResumeBeforeStatus(snap) {
        PassSkips(accounts, batch, n, earlier, unasked, before);
        LeaveSlot(mine, n);
        return before, unasked + 1, CountedSlot, earlier;
      }
      if !inTime {
        PassStops(accounts, batch, n, earlier, unasked, hasAdditional, before);
        return before.(interrupted := true, needsRetry := true), unasked, OutOfSlotTime, earlier;
      }
      var counted;
      ghost var reply;
      report, counted, reply := ReconcileSlot(mine, n, before);
      if !counted {
        return report, unasked, FailedSlot, earlier;
      }
      PassAsks(accounts, batch, n, earlier, unasked, before, reply);
      return report, unasked, CountedSlot, earlier + [Asked(snap, reply)];
    }

    /** Different positions of this process. */
    ghost predicate Own(mine: seq<nat>) {
      && (forall k :: 0 <= k < |mine| ==> mine[k] in slots)
      && forall i, j :: 0 <= i < j < |mine| ==> mine[i] != mine[j]
    }

    /** A longer run in which no position of the pass called the wallet. */
    twostate predicate CalledNothing(mine: seq<nat>)
      reads this
    {
      && Valid() && start == old(start) && old(trace) <= trace
      && forall k :: 0 <= k < |mine| ==> StepsBy(mine[k], Calls, trace) == StepsBy(mine[k], Calls, old(trace))
    }

    /** The positions from this one on still hold their snapshots. */
    ghost predicate StillLoaded(mine: seq<nat>, batch: seq<EventId>, accounts: A.Accounts, n: nat)
      requires |mine| >= |batch| && forall e <- batch :: e in accounts.attempts
      reads this
    {
      forall k :: n <= k < |batch| ==> AgentOf(world, mine[k]) == Reviewing(accounts.attempts[batch[k]])
    }

    /** The remaining positions of a pass are not moved by work at one of them. */
    twostate predicate OthersWait(mine: seq<nat>, n: nat)
      requires n < |mine|
      reads this
    {
      && Valid() && start == old(start) && old(trace) <= trace
      && (forall k :: 0 <= k < |mine| ==> StepsBy(mine[k], Calls, trace) == StepsBy(mine[k], Calls, old(trace)))
      && forall k :: 0 <= k < |mine| && k != n ==> AgentOf(world, mine[k]) == AgentOf(old(world), mine[k])
    }

    method LeaveSlot(mine: seq<nat>, n: nat)
      requires Valid() && n < |mine| && Own(mine)
      modifies this
      ensures OthersWait(mine, n)
    {
      Leave(mine[n]);
    }

    method ReconcileSlot(mine: seq<nat>, n: nat, before: ReconciliationReport)
      returns (report: ReconciliationReport, ok: bool, ghost reply: Result<Status, HostErrorKind>)
      requires Valid() && n < |mine| && Own(mine)
      requires AgentOf(world, mine[n]).Reviewing? && !MustResumeBeforeStatus(AgentOf(world, mine[n]).snap)
      modifies this
      ensures OthersWait(mine, n)
      ensures ok ==> report == Counted(before, AgentOf(old(world), mine[n]).snap, reply)
      ensures report.interrupted == before.interrupted && report.needsRetry == before.needsRetry
    {
      report, ok, reply := ReconcileOne(mine[n], before);
    }
  }
}
