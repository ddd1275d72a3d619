/**
 What is recorded is what the wallet reported: amounts, charge and failure, in every run. A settled row is
 final.
 */
module PaymentRecords {
  import opened Types
  import opened Payments
  import opened PaymentSafety
  import opened PaymentAuthorization
  import PX = PaymentExactness
  import PO = PaymentOwners
  import A = Accounting
  import O = AccountingOutcomes

  /** The row found under a payment hash. */
  ghost predicate Tracked(w: World, hash: PaymentHash) {
    hash in w.accounts.byHash && w.accounts.byHash[hash] in w.accounts.attempts
  }

  function RowUnder(w: World, hash: PaymentHash): A.Attempt
    requires Tracked(w, hash)
  {
    w.accounts.attempts[w.accounts.byHash[hash]]
  }

  /** A settled row charges its principal, and its fee where the connection's policy counts fees. */
  ghost predicate ChargesByPolicy(w: World, t: A.Attempt) {
    && t.connection in w.grants && t.actualPrincipalSat.Some? && t.actualFeeSat.Some?
    && t.chargedSat == Some(t.actualPrincipalSat.value
                            + (if w.grants[t.connection].budget.feePolicy.CountTowardBudget? then t.actualFeeSat.value else 0))
  }

  ghost predicate SettledRowsCharge(w: World) {
    forall e <- w.accounts.attempts :: w.accounts.attempts[e].state == A.Succeeded ==> ChargesByPolicy(w, w.accounts.attempts[e])
  }

  /** The row under the hash is settled with these amounts and charged by its policy. */
  ghost predicate PaidAs(w: World, hash: PaymentHash, amountMsat: nat, feeMsat: nat) {
    Tracked(w, hash) && O.SettledAs(RowUnder(w, hash), amountMsat, feeMsat) && ChargesByPolicy(w, RowUnder(w, hash))
  }

  // ---- Settled rows are final ----

  /** Settled rows stay as they are; a failed one may only be settled later. */
  ghost predicate OutcomesStay(before: A.Accounts, after: A.Accounts) {
    && (forall e <- before.attempts :: before.attempts[e].state == A.Succeeded ==>
          e in after.attempts && after.attempts[e] == before.attempts[e])
    && (forall e <- before.attempts :: before.attempts[e].state == A.Failed ==>
          && e in after.attempts && after.attempts[e].hash == before.attempts[e].hash
          && (after.attempts[e].state == A.Failed || after.attempts[e].state == A.Succeeded))
  }

  lemma OutcomesStayOn(a: A.Accounts, b: A.Accounts, c: A.Accounts)
    requires OutcomesStay(a, b) && OutcomesStay(b, c)
    ensures OutcomesStay(a, c)
  {
  }

  /** Rows settled by the step carry these amounts. */
  ghost predicate SettlesOnly(before: A.Accounts, after: A.Accounts, grants: map<ConnectionId, A.Grant>) {
    forall e <- after.attempts :: after.attempts[e].state == A.Succeeded ==>
      || (e in before.attempts && before.attempts[e] == after.attempts[e])
      || (&& after.attempts[e].connection in grants
          && O.ChargedAs(after.attempts[e], grants[after.attempts[e].connection].budget.feePolicy.CountTowardBudget?))
  }

  lemma MarksSettleNothing(a: A.Accounts, grants: map<ConnectionId, A.Grant>, hash: PaymentHash, now: nat)
    requires A.Valid(a)
    ensures OutcomesStay(a, A.MarkInitiated(a, hash, now).0) && SettlesOnly(a, A.MarkInitiated(a, hash, now).0, grants)
    ensures OutcomesStay(a, A.MarkPending(a, hash, now).0) && SettlesOnly(a, A.MarkPending(a, hash, now).0, grants)
  {
    if hash in a.byHash {
      O.InitiationExactly(a, hash, now);
      O.PendingExactly(a, hash, now);
    }
  }

  lemma RefundsSettleNothing(a: A.Accounts, imported: map<A.PeriodKey, nat>, grants: map<ConnectionId, A.Grant>, hash: PaymentHash, now: nat)
    requires A.Sound(a, imported)
    ensures OutcomesStay(a, A.ReleaseUninitiated(a, hash, now).0) && SettlesOnly(a, A.ReleaseUninitiated(a, hash, now).0, grants)
    ensures OutcomesStay(a, A.MarkFailed(a, hash, now).0) && SettlesOnly(a, A.MarkFailed(a, hash, now).0, grants)
  {
    if hash in a.byHash {
      O.ReleaseExactly(a, imported, hash, now);
      O.FailureExactly(a, imported, hash, now);
    }
  }

  lemma SettlementSettles(a: A.Accounts, imported: map<A.PeriodKey, nat>, grants: map<ConnectionId, A.Grant>, hash: PaymentHash,
                          amountMsat: nat, feeMsat: nat, now: nat)
    requires A.Sound(a, imported)
    ensures var next := A.MarkSucceeded(a, grants, hash, amountMsat, feeMsat, now).0;
            OutcomesStay(a, next) && SettlesOnly(a, next, grants)
  {
    O.UnsettledAmounts(a, grants, hash, amountMsat, feeMsat, now);
    if hash in a.byHash && a.attempts[a.byHash[hash]].connection in grants && amountMsat + 999 <= U64_MAX && feeMsat + 999 <= U64_MAX {
      if a.attempts[a.byHash[hash]].state == A.Succeeded {
        O.SettlementRepeats(a, grants, hash, amountMsat, feeMsat, now);
      } else {
        O.SettlementExactly(a, imported, grants, hash, amountMsat, feeMsat, now);
      }
    }
  }

  lemma RecordSettles(w: World, hash: PaymentHash, status: Status, now: nat)
    requires Books(w)
    ensures OutcomesStay(w.accounts, RecordStatus(w, hash, status, now).0)
    ensures SettlesOnly(w.accounts, RecordStatus(w, hash, status, now).0, w.grants)
  {
    match status
    case Settled(_, amount, fee) => SettlementSettles(w.accounts, w.imported, w.grants, hash, amount, fee, now);
    case Failed => RefundsSettleNothing(w.accounts, w.imported, w.grants, hash, now);
    case _ => MarksSettleNothing(w.accounts, w.grants, hash, now);
  }

  lemma ReserveSettlesNothing(w: World, a: Action)
    requires Books(w) && Enabled(w, a) && a.ReserveFor?
    ensures OutcomesStay(w.accounts, Apply(w, a).accounts) && SettlesOnly(w.accounts, Apply(w, a).accounts, w.grants)
  {
    var order := w.orders[a.event];
    A.ReserveWrites(w.accounts, w.grants, a.event, a.hash, order.connection, order.revision, a.principal, a.now);
  }

  lemma MarkOrReleaseSettlesNothing(w: World, a: Action)
    requires Books(w) && Enabled(w, a) && (a.Mark? || a.Release?)
    ensures OutcomesStay(w.accounts, Apply(w, a).accounts) && SettlesOnly(w.accounts, Apply(w, a).accounts, w.grants)
  {
    if a.Mark? {
      MarksSettleNothing(w.accounts, w.grants, AgentOf(w, a.i).snap.hash, a.now);
    } else {
      RefundsSettleNothing(w.accounts, w.imported, w.grants, AgentOf(w, a.i).hash, a.now);
    }
  }

  lemma RecordStepSettles(w: World, a: Action)
    requires Books(w) && Enabled(w, a) && (a.Record? || a.RecordUncertain?)
    ensures OutcomesStay(w.accounts, Apply(w, a).accounts) && SettlesOnly(w.accounts, Apply(w, a).accounts, w.grants)
  {
    RecordSettles(w, AgentOf(w, a.i).hash, if a.Record? then AgentOf(w, a.i).status else Unknown, a.now);
  }

  lemma StepSettles(w: World, a: Action)
    requires Books(w) && Enabled(w, a)
    ensures OutcomesStay(w.accounts, Apply(w, a).accounts) && SettlesOnly(w.accounts, Apply(w, a).accounts, w.grants)
  {
    if a.ReserveFor? {
      ReserveSettlesNothing(w, a);
    } else if a.Mark? || a.Release? {
      MarkOrReleaseSettlesNothing(w, a);
    } else if a.Record? || a.RecordUncertain? {
      RecordStepSettles(w, a);
    } else {
      PO.OtherStepsKeepAttempts(w, a);
    }
  }

  lemma PoliciesStay(w: World, a: Action)
    requires Enabled(w, a)
    ensures forall c <- w.grants :: c in Apply(w, a).grants && Apply(w, a).grants[c].budget == w.grants[c].budget
  {
    if !a.Issue? && !a.Revoke? {
      GrantsStay(w, a);
    }
  }

  lemma ChargesFollow(w: World, next: World)
    requires SettledRowsCharge(w) && SettlesOnly(w.accounts, next.accounts, w.grants)
    requires forall c <- w.grants :: c in next.grants && next.grants[c].budget == w.grants[c].budget
    ensures SettledRowsCharge(next)
  {
    forall e | e in next.accounts.attempts && next.accounts.attempts[e].state == A.Succeeded
      ensures ChargesByPolicy(next, next.accounts.attempts[e])
    {
      var t := next.accounts.attempts[e];
      assert e in w.accounts.attempts && w.accounts.attempts[e] == t ==> ChargesByPolicy(w, t);
    }
  }

  lemma StepKeepsCharges(w: World, a: Action)
    requires Books(w) && Enabled(w, a) && SettledRowsCharge(w)
    ensures SettledRowsCharge(Apply(w, a))
  {
    StepSettles(w, a);
    PoliciesStay(w, a);
    ChargesFollow(w, Apply(w, a));
  }

  lemma {:induction false} RunKeepsRecords(w: World, actions: seq<Action>)
    requires Books(w) && Run(w, actions) && SettledRowsCharge(w)
    ensures Books(After(w, actions)) && SettledRowsCharge(After(w, actions))
    decreases |actions|
  {
    if actions != [] {
      StepKeepsBooks(w, actions[0]);
      StepKeepsCharges(w, actions[0]);
      RunKeepsRecords(Apply(w, actions[0]), actions[1..]);
    }
  }

  /** A settled attempt never changes again, whatever is reported or retried. */
  lemma {:induction false} SettledRowsAreFinal(w: World, actions: seq<Action>, e: EventId)
    requires Books(w) && Run(w, actions) && e in w.accounts.attempts && w.accounts.attempts[e].state == A.Succeeded
    ensures e in After(w, actions).accounts.attempts && After(w, actions).accounts.attempts[e] == w.accounts.attempts[e]
    decreases |actions|
  {
    if actions != [] {
      StepSettles(w, actions[0]);
      StepKeepsBooks(w, actions[0]);
      SettledRowsAreFinal(Apply(w, actions[0]), actions[1..], e);
    }
  }

  // ---- What one record step writes ----

  /** A reported settlement is recorded with its own amounts, or nothing is recorded. */
  lemma SettlementStep(w: World, i: nat, now: nat)
    requires Books(w) && SettledRowsCharge(w) && AgentOf(w, i).Reported? && AgentOf(w, i).status.Settled?
    ensures var agent, next := AgentOf(w, i), Apply(w, Record(i, now));
            if AgentOf(next, i) == Answering(agent.event, PaidAnswer)
            then PaidAs(next, agent.hash, agent.status.amountMsat, agent.status.feeMsat)
            else next.accounts == w.accounts && AgentOf(next, i).Idle?
  {
    var agent := AgentOf(w, i);
    O.UnsettledAmounts(w.accounts, w.grants, agent.hash, agent.status.amountMsat, agent.status.feeMsat, now);
    StepKeepsCharges(w, Record(i, now));
    if agent.hash in w.accounts.byHash && agent.status.amountMsat + 999 <= U64_MAX && agent.status.feeMsat + 999 <= U64_MAX {
      SettlementRow(w, agent.hash, agent.status.amountMsat, agent.status.feeMsat, now);
    }
  }

  lemma SettlementRow(w: World, hash: PaymentHash, amountMsat: nat, feeMsat: nat, now: nat)
    requires Books(w) && hash in w.accounts.byHash && amountMsat + 999 <= U64_MAX && feeMsat + 999 <= U64_MAX
    ensures var (next, r) := A.MarkSucceeded(w.accounts, w.grants, hash, amountMsat, feeMsat, now);
            if r.Ok?
            then hash in next.byHash && next.byHash[hash] in next.attempts && O.SettledAs(next.attempts[next.byHash[hash]], amountMsat, feeMsat)
            else next == w.accounts
  {
    if w.accounts.attempts[w.accounts.byHash[hash]].state == A.Succeeded {
      O.SettlementRepeats(w.accounts, w.grants, hash, amountMsat, feeMsat, now);
    } else {
      O.SettlementExactly(w.accounts, w.imported, w.grants, hash, amountMsat, feeMsat, now);
    }
  }

  /** A reported failure refunds a marked, unsettled attempt, or nothing is recorded. */
  lemma FailureStep(w: World, i: nat, now: nat)
    requires Books(w) && AgentOf(w, i).Reported? && AgentOf(w, i).status.Failed?
    ensures var agent, next := AgentOf(w, i), Apply(w, Record(i, now));
            if AgentOf(next, i) == Answering(agent.event, DeclinedAnswer)
            then Tracked(next, agent.hash) && RowUnder(next, agent.hash).state == A.Failed
            else next.accounts == w.accounts && AgentOf(next, i).Idle?
  {
    var hash := AgentOf(w, i).hash;
    if hash in w.accounts.byHash {
      O.FailureExactly(w.accounts, w.imported, hash, now);
    }
  }

  /** The row under the hash has failed, or was settled after that. */
  ghost predicate FailedOrPaid(w: World, hash: PaymentHash) {
    Tracked(w, hash) && (RowUnder(w, hash).state == A.Failed || RowUnder(w, hash).state == A.Succeeded)
  }

  /** What a decided status leaves in the tables for good. */
  ghost predicate OutcomeRecorded(w: World, hash: PaymentHash, status: Status) {
    match status
    case Settled(_, amount, fee) => PaidAs(w, hash, amount, fee)
    case Failed => FailedOrPaid(w, hash)
    case _ => true
  }

  /** Recording a reported status. */
  lemma ReportedStep(w: World, i: nat, now: nat)
    requires Books(w) && SettledRowsCharge(w) && AgentOf(w, i).Reported?
    ensures var agent := AgentOf(w, i);
            RecordStatus(w, agent.hash, agent.status, now).1.Ok? ==>
              OutcomeRecorded(Apply(w, Record(i, now)), agent.hash, agent.status)
  {
    if AgentOf(w, i).status.Settled? {
      SettlementStep(w, i, now);
    } else if AgentOf(w, i).status.Failed? {
      FailureStep(w, i, now);
    }
  }

  /** An undecided answer leaves a marked reservation pending and everything else as it is. */
  lemma UndecidedStep(w: World, a: Action)
    requires Books(w) && Enabled(w, a)
    requires a.RecordUncertain? || (a.Record? && (AgentOf(w, a.i).status.Unknown? || AgentOf(w, a.i).status.InFlight?))
    ensures var hash, next := AgentOf(w, a.i).hash, Apply(w, a);
            && AgentOf(next, a.i).Idle?
            && next.accounts == if && hash in w.accounts.byHash && a.now <= I64_MAX
                                   && var t := w.accounts.attempts[w.accounts.byHash[hash]];
                                   t.updatedAt <= a.now && t.initiatedAt.Some? && t.state == A.Reserved
                                then w.accounts.(attempts := w.accounts.attempts[w.accounts.byHash[hash] :=
                                       w.accounts.attempts[w.accounts.byHash[hash]].(state := A.Pending, updatedAt := a.now)])
                                else w.accounts
  {
    var hash := AgentOf(w, a.i).hash;
    if hash in w.accounts.byHash {
      O.PendingExactly(w.accounts, hash, a.now);
    }
  }

  // ---- What the wallet answers is what is recorded ----

  /**
   After a call the wallet's own status is recorded; an error counts as a failure exactly when it is a refusal
   before submission, and stays undecided otherwise.
   */
  lemma StartIsReportedExactly(w: World, i: nat, reply: Result<Status, HostErrorKind>, phase: Phase)
    requires Enabled(w, Start(i, reply, phase))
    ensures var (agent, next) := (AgentOf(w, i), AgentOf(Apply(w, Start(i, reply, phase)), i));
            && (reply.Ok? ==> next == Reported(agent.event, agent.snap.hash, reply.value))
            && (reply.Err? && reply.error in {HostErrorKind.Rejected, NotFound} ==> next == Reported(agent.event, agent.snap.hash, Failed))
            && (reply.Err? && reply.error !in {HostErrorKind.Rejected, NotFound} ==> next == Uncertain(agent.event, agent.snap.hash))
  {
  }

  /**
   A status by hash is recorded as the wallet gave it only for an attempt that was marked before; one never
   marked is given back, and an unknown payment goes on to the authorization check.
   */
  lemma InquiryIsReportedExactly(w: World, i: nat, reply: Result<Status, HostErrorKind>)
    requires Enabled(w, Inquire(i, reply))
    ensures var (agent, next) := (AgentOf(w, i), AgentOf(Apply(w, Inquire(i, reply)), i));
            && (reply.Err? <==> next.Idle?)
            && (reply == Ok(Unknown) ==> next == Checked(agent.event, agent.snap))
            && (reply.Ok? && reply.value != Unknown ==>
                  next == if agent.snap.initiatedAt.Some? then Reported(agent.event, agent.snap.hash, reply.value)
                          else Refused(agent.event, agent.snap.hash))
  {
  }

  // ---- Over runs ----

  /** A ledger whose books balance and whose settled rows charge by their policies. */
  ghost predicate Grounded(w: World) {
    Books(w) && SettledRowsCharge(w)
  }

  lemma {:induction false} OutcomesStayAlong(w: World, actions: seq<Action>)
    requires Grounded(w) && Run(w, actions)
    ensures OutcomesStay(w.accounts, After(w, actions).accounts)
    decreases |actions|
  {
    if actions != [] {
      StepSettles(w, actions[0]);
      StepKeepsBooks(w, actions[0]);
      StepKeepsCharges(w, actions[0]);
      OutcomesStayAlong(Apply(w, actions[0]), actions[1..]);
      OutcomesStayOn(w.accounts, Apply(w, actions[0]).accounts, After(w, actions).accounts);
    }
  }

  lemma OutcomeStays(w: World, next: World, hash: PaymentHash, status: Status)
    requires Books(w) && Grounded(next) && OutcomesStay(w.accounts, next.accounts) && OutcomeRecorded(w, hash, status)
    ensures OutcomeRecorded(next, hash, status)
  {
    if Tracked(w, hash) && w.accounts.byHash[hash] in next.accounts.attempts {
      A.OwnRow(w.accounts, w.accounts.byHash[hash]);
      A.OwnRow(next.accounts, w.accounts.byHash[hash]);
    }
  }

  /** A recorded outcome is still recorded at every later point of the run. */
  lemma OutcomeLasts(start: World, before: seq<Action>, after: seq<Action>, hash: PaymentHash, status: Status)
    requires Grounded(start) && Run(start, after) && before <= after
    ensures Run(start, before)
    ensures OutcomeRecorded(After(start, before), hash, status) ==> OutcomeRecorded(After(start, after), hash, status)
  {
    RestRuns(start, after, |before|);
    assert after[..|before|] == before;
    RunKeepsRecords(start, before);
    RunKeepsRecords(start, after);
    OutcomesStayAlong(After(start, before), after[|before|..]);
    if OutcomeRecorded(After(start, before), hash, status) {
      OutcomeStays(After(start, before), After(start, after), hash, status);
    }
  }

  /**
   In every run, whenever a reported settlement leads to a success answer, the row under its hash is settled
   with exactly the reported amounts rounded up to satoshi, and charges the principal, or principal and fee
   where the policy counts fees; and that row is the same in every later state.
   */
  lemma SettlementIsRecordedAsReported(start: World, actions: seq<Action>, n: nat)
    requires Init(start) && Run(start, actions) && n < |actions| && actions[n].Record?
    ensures var agent := AgentOf(At(start, actions, n), actions[n].i);
            agent.Reported? && agent.status.Settled?
            && AgentOf(At(start, actions, n + 1), actions[n].i) == Answering(agent.event, PaidAnswer) ==>
              && PaidAs(At(start, actions, n + 1), agent.hash, agent.status.amountMsat, agent.status.feeMsat)
              && Tracked(After(start, actions), agent.hash)
              && RowUnder(After(start, actions), agent.hash) == RowUnder(At(start, actions, n + 1), agent.hash)
  {
    var w, i := At(start, actions, n), actions[n].i;
    PX.PrefixRuns(start, actions, n);
    RecordsHold(start, actions, n);
    if AgentOf(w, i).Reported? && AgentOf(w, i).status.Settled? {
      SettlementStep(w, i, actions[n].now);
      if AgentOf(At(start, actions, n + 1), i) == Answering(AgentOf(w, i).event, PaidAnswer) {
        SettledRowLasts(start, actions, n + 1, AgentOf(w, i).hash);
      }
    }
  }

  lemma RecordsHold(start: World, actions: seq<Action>, n: nat)
    requires Init(start) && Run(start, actions) && n <= |actions|
    ensures Books(At(start, actions, n)) && SettledRowsCharge(At(start, actions, n))
  {
    PX.PrefixRuns(start, actions, n);
    InitRecords(start);
    RunKeepsRecords(start, actions[..n]);
  }

  lemma InitRecords(w: World)
    requires Init(w)
    ensures Books(w) && SettledRowsCharge(w)
  {
    InitIsInv(w);
    forall e | e in w.accounts.attempts && w.accounts.attempts[e].state == A.Succeeded
      ensures ChargesByPolicy(w, w.accounts.attempts[e])
    {
      assert SettledBefore(w, e, w.accounts.attempts[e]);
    }
  }

  lemma SettledRowLasts(start: World, actions: seq<Action>, n: nat, hash: PaymentHash)
    requires Init(start) && Run(start, actions) && n <= |actions|
    requires Tracked(At(start, actions, n), hash) && RowUnder(At(start, actions, n), hash).state == A.Succeeded
    ensures Tracked(After(start, actions), hash) && RowUnder(After(start, actions), hash) == RowUnder(At(start, actions, n), hash)
  {
    var w := At(start, actions, n);
    RecordsHold(start, actions, n);
    RestRuns(start, actions, n);
    SettledRowsAreFinal(w, actions[n..], w.accounts.byHash[hash]);
    RecordsHold(start, actions, |actions|);
    assert actions[..|actions|] == actions;
    A.OwnRow(After(start, actions).accounts, w.accounts.byHash[hash]);
  }

  lemma {:induction false} RestRuns(w: World, actions: seq<Action>, n: nat)
    requires Run(w, actions) && n <= |actions|
    ensures Run(w, actions[..n]) && Run(After(w, actions[..n]), actions[n..])
    ensures After(After(w, actions[..n]), actions[n..]) == After(w, actions)
    decreases n
  {
    if n == 0 {
      assert actions[..0] == [] && actions[0..] == actions;
    } else {
      assert actions[..n][0] == actions[0] && actions[..n][1..] == actions[1..][..n - 1] && actions[n..] == actions[1..][n - 1..];
      RestRuns(Apply(w, actions[0]), actions[1..], n - 1);
    }
  }
}
