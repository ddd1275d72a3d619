/**
 What each accounting transaction does, in the columns of its rows: when it succeeds, with which error it
 fails otherwise, and the whole new state.
 */
module AccountingOutcomes {
  import opened Types
  import opened Accounting
  import Budget

  /** The renewable intervals in seconds. */
  function IntervalSeconds(interval: Budget.Interval): nat {
    match interval
    case Never => 0
    case Hourly => 60 * 60
    case Daily => 24 * 60 * 60
    case Weekly => 7 * 24 * 60 * 60
    case Monthly => 30 * 24 * 60 * 60
    case Yearly => 365 * 24 * 60 * 60
  }

  // ---- Reservation ----

  /** Which connections may reserve: the row exists at this revision, is active, not expired, and may pay. */
  lemma ReservationAuthorizedExactly(a: Accounts, grants: map<ConnectionId, Grant>, event: EventId, hash: PaymentHash,
                                     connection: ConnectionId, revision: nat, principal: nat, now: nat)
    requires 0 < principal <= I64_MAX && now <= I64_MAX && revision <= I64_MAX
    ensures Reserve(a, grants, event, hash, connection, revision, principal, now).1 == Err(ConnectionUnavailable) <==>
              || connection !in grants
              || grants[connection].revision != revision
              || !grants[connection].active
              || (grants[connection].expiresAt.Some? && grants[connection].expiresAt.value <= now)
              || !grants[connection].mayPay
  {
  }

  lemma UnstorableReservation(a: Accounts, grants: map<ConnectionId, Grant>, event: EventId, hash: PaymentHash,
                              connection: ConnectionId, revision: nat, principal: nat, now: nat)
    ensures Reserve(a, grants, event, hash, connection, revision, principal, now).1 == Err(InvalidAmount) <==> principal == 0
    ensures principal > 0 && (principal > I64_MAX || now > I64_MAX || revision > I64_MAX) ==>
              Reserve(a, grants, event, hash, connection, revision, principal, now) == (a, Err(ValueOutOfRange))
  {
  }

  /** A repeated event gets its own attempt only with the same request; another event's hash is already tracked. */
  lemma KnownReservation(a: Accounts, grants: map<ConnectionId, Grant>, event: EventId, hash: PaymentHash,
                         connection: ConnectionId, revision: nat, principal: nat, now: nat)
    requires Valid(a) && 0 < principal <= I64_MAX && now <= I64_MAX && revision <= I64_MAX
    requires connection in grants && grants[connection].revision == revision && grants[connection].active && grants[connection].mayPay
    requires grants[connection].expiresAt.Some? ==> grants[connection].expiresAt.value > now
    requires grants[connection].createdAt <= now
    ensures event in a.attempts ==>
              var t := a.attempts[event];
              Reserve(a, grants, event, hash, connection, revision, principal, now) ==
                (a, if t.hash == hash && t.connection == connection && t.revision == revision && t.principalSat == principal
                    then Ok(Existing(t)) else Err(ReservationConflict))
    ensures event !in a.attempts && hash in a.byHash ==>
              Reserve(a, grants, event, hash, connection, revision, principal, now)
              == (a, Ok(AlreadyTracked(a.attempts[a.byHash[hash]])))
  {
    Budget.PeriodStartsAgree(grants[connection].budget.interval, grants[connection].createdAt, now);
  }

  /** The attempt a new reservation writes, the period it debits and by how much. */
  lemma NewReservationColumns(a: Accounts, grants: map<ConnectionId, Grant>, event: EventId, hash: PaymentHash,
                              connection: ConnectionId, revision: nat, principal: nat, now: nat)
    requires Valid(a)
    requires Reserve(a, grants, event, hash, connection, revision, principal, now).1.Ok?
    requires Reserve(a, grants, event, hash, connection, revision, principal, now).1.value.NewReservation?
    ensures connection in grants
    ensures var (next, r) := Reserve(a, grants, event, hash, connection, revision, principal, now);
            var t, budget := r.value.attempt, grants[connection].budget;
            var fee := if budget.feePolicy.CountTowardBudget? then budget.feePolicy.maximumFeeSat else 0;
            && t.event == event && t.hash == hash && t.connection == connection && t.revision == revision
            && t.principalSat == principal && t.feeReserveSat == fee
            && t.state == Reserved && t.initiatedAt == None && !t.legacyAmbiguous && !t.exceeded
            && t.actualPrincipalSat == t.actualFeeSat == t.chargedSat == None && t.createdAt == t.updatedAt == now
            && next.attempts == a.attempts[event := t] && next.byHash == a.byHash[hash := event]
    ensures var (next, r) := Reserve(a, grants, event, hash, connection, revision, principal, now);
            var t, budget := r.value.attempt, grants[connection].budget;
            var key := PeriodKey(connection, t.periodStart);
            && key in next.periods && next.periods == a.periods[key := next.periods[key]]
            && next.periods[key].limitSat == budget.limitSat && next.periods[key].updatedAt == now
            && next.periods[key].usedSat ==
                 (if key in a.periods then a.periods[key].usedSat else 0) + principal
                 + (if budget.feePolicy.CountTowardBudget? then budget.feePolicy.maximumFeeSat else 0)
    ensures var t := Reserve(a, grants, event, hash, connection, revision, principal, now).1.value.attempt;
            var grant := grants[connection];
            var seconds := IntervalSeconds(grant.budget.interval);
            if grant.budget.interval == Budget.Never then t.periodStart == grant.createdAt <= now
            else grant.createdAt <= t.periodStart <= now < t.periodStart + seconds && (t.periodStart - grant.createdAt) % seconds == 0
  {
    Budget.PeriodStartsAgree(grants[connection].budget.interval, grants[connection].createdAt, now);
  }

  // ---- Transitions ----

  /** A transition of an untracked hash fails and changes nothing. */
  lemma UntrackedHash(a: Accounts, grants: map<ConnectionId, Grant>, hash: PaymentHash, principalMsat: nat, feeMsat: nat, now: nat)
    requires hash !in a.byHash && now <= I64_MAX && principalMsat + 999 <= U64_MAX && feeMsat + 999 <= U64_MAX
    ensures MarkInitiated(a, hash, now) == MarkPending(a, hash, now) == MarkFailed(a, hash, now) == (a, Err(ReservationConflict))
    ensures ReleaseUninitiated(a, hash, now) == (a, Err(ReservationConflict))
    ensures MarkSucceeded(a, grants, hash, principalMsat, feeMsat, now) == (a, Err(ReservationConflict))
  {
  }

  /** The marker is written once, at the time of the call, and only on a reservation. */
  lemma InitiationExactly(a: Accounts, hash: PaymentHash, now: nat)
    requires Valid(a) && hash in a.byHash
    ensures var e := a.byHash[hash];
            var t := a.attempts[e];
            var (next, r) := MarkInitiated(a, hash, now);
            && (r.Ok? <==> now <= I64_MAX && t.updatedAt <= now && (t.initiatedAt.Some? || t.state == Reserved))
            && (r.Ok? && t.initiatedAt.Some? ==> r.value == t && next == a)
            && (r.Ok? && t.initiatedAt.None? ==>
                  r.value == t.(initiatedAt := Some(now), updatedAt := now) && next == a.(attempts := a.attempts[e := r.value]))
            && (r.Err? ==> next == a && r.error == ValueOutOfRange)
  {
  }

  /** Only a marked reservation becomes pending; a pending attempt stays as it is. */
  lemma PendingExactly(a: Accounts, hash: PaymentHash, now: nat)
    requires Valid(a) && hash in a.byHash
    ensures var e := a.byHash[hash];
            var t := a.attempts[e];
            var (next, r) := MarkPending(a, hash, now);
            && (r.Ok? <==> now <= I64_MAX && t.updatedAt <= now && t.initiatedAt.Some? && (t.state == Reserved || t.state == Pending))
            && (r.Ok? && t.state == Pending ==> r.value == t && next == a)
            && (r.Ok? && t.state == Reserved ==>
                  r.value == t.(state := Pending, updatedAt := now) && next == a.(attempts := a.attempts[e := r.value]))
            && (r.Err? ==> next == a && r.error == if now <= I64_MAX && t.updatedAt <= now then TerminalStateConflict else ValueOutOfRange)
  {
  }

  /** One period's counter moves by a signed amount; every other period row stays as it is. */
  ghost predicate CounterMoves(before: map<PeriodKey, Period>, after: map<PeriodKey, Period>, key: PeriodKey, amount: int, now: nat) {
    && key in before
    && before[key].usedSat + amount >= 0
    && after == before[key := Period(before[key].limitSat, before[key].usedSat + amount, now)]
  }

  /** Only an unmarked reservation is released: its row goes, and its principal and fee reserve return to its period. */
  lemma ReleaseExactly(a: Accounts, imported: map<PeriodKey, nat>, hash: PaymentHash, now: nat)
    requires Sound(a, imported) && hash in a.byHash
    ensures var e := a.byHash[hash];
            var t := a.attempts[e];
            var (next, r) := ReleaseUninitiated(a, hash, now);
            && (r.Ok? <==> now <= I64_MAX && t.updatedAt <= now && t.state == Reserved && t.initiatedAt.None?)
            && (r.Ok? ==>
                  && next.attempts == a.attempts - {e} && next.byHash == a.byHash - {hash}
                  && CounterMoves(a.periods, next.periods, PeriodKey(t.connection, t.periodStart), -(t.principalSat + t.feeReserveSat), now))
            && (r.Err? ==> next == a && r.error == if now <= I64_MAX && t.updatedAt <= now then TerminalStateConflict else ValueOutOfRange)
  {
    DebitIsCovered(a, imported, a.byHash[hash]);
  }

  /** A marked, unsettled attempt fails once: its principal and fee reserve return to its period. */
  lemma FailureExactly(a: Accounts, imported: map<PeriodKey, nat>, hash: PaymentHash, now: nat)
    requires Sound(a, imported) && hash in a.byHash
    ensures var e := a.byHash[hash];
            var t := a.attempts[e];
            var (next, r) := MarkFailed(a, hash, now);
            && (r.Ok? <==> now <= I64_MAX && t.updatedAt <= now && t.initiatedAt.Some? && t.state != Succeeded)
            && (r.Ok? && t.state == Failed ==> r.value == t && next == a)
            && (r.Ok? && t.state != Failed ==>
                  && r.value == t.(state := Failed, updatedAt := now)
                  && next.attempts == a.attempts[e := r.value] && next.byHash == a.byHash
                  && CounterMoves(a.periods, next.periods, PeriodKey(t.connection, t.periodStart), -(t.principalSat + t.feeReserveSat), now))
            && (r.Err? ==> next == a && r.error == if now <= I64_MAX && t.updatedAt <= now then TerminalStateConflict else ValueOutOfRange)
  {
    DebitIsCovered(a, imported, a.byHash[hash]);
  }

  /** The row a settlement of these millisatoshi amounts leaves, under a policy that counts fees or not. */
  ghost predicate SettledAs(t: Attempt, amountMsat: nat, feeMsat: nat) {
    && t.state == Succeeded && t.actualPrincipalSat.Some? && t.actualFeeSat.Some?
    && amountMsat <= 1_000 * t.actualPrincipalSat.value < amountMsat + 1_000
    && feeMsat <= 1_000 * t.actualFeeSat.value < feeMsat + 1_000
  }

  ghost predicate ChargedAs(t: Attempt, countsFees: bool) {
    && t.actualPrincipalSat.Some? && t.actualFeeSat.Some?
    && t.chargedSat == Some(t.actualPrincipalSat.value + (if countsFees then t.actualFeeSat.value else 0))
    && (t.exceeded <==> t.actualPrincipalSat.value > t.principalSat || (countsFees && t.actualFeeSat.value > t.feeReserveSat))
  }

  /**
   A settlement is recorded on a marked attempt with both amounts rounded up, charges the principal or
   principal and fee, and replaces what the attempt debited, also after an earlier failure.
   */
  lemma SettlementExactly(a: Accounts, imported: map<PeriodKey, nat>, grants: map<ConnectionId, Grant>, hash: PaymentHash,
                          amountMsat: nat, feeMsat: nat, now: nat)
    requires Sound(a, imported) && hash in a.byHash && a.attempts[a.byHash[hash]].connection in grants
    requires a.attempts[a.byHash[hash]].state != Succeeded && amountMsat + 999 <= U64_MAX && feeMsat + 999 <= U64_MAX
    ensures var e := a.byHash[hash];
            var t := a.attempts[e];
            var key := PeriodKey(t.connection, t.periodStart);
            var counts := grants[t.connection].budget.feePolicy.CountTowardBudget?;
            var debit := if t.state == Failed then 0 else t.principalSat + t.feeReserveSat;
            var charge := (amountMsat + 999) / 1_000 + (if counts then (feeMsat + 999) / 1_000 else 0);
            var (next, r) := MarkSucceeded(a, grants, hash, amountMsat, feeMsat, now);
            && (r.Ok? <==> now <= I64_MAX && t.updatedAt <= now && t.initiatedAt.Some?
                           && a.periods[key].usedSat - debit + charge <= I64_MAX)
            && (r.Ok? ==>
                  && SettledAs(r.value, amountMsat, feeMsat) && ChargedAs(r.value, counts) && r.value.chargedSat == Some(charge)
                  && r.value == t.(state := Succeeded, actualPrincipalSat := r.value.actualPrincipalSat, actualFeeSat := r.value.actualFeeSat,
                                   chargedSat := r.value.chargedSat, exceeded := r.value.exceeded, updatedAt := now)
                  && next.attempts == a.attempts[e := r.value] && next.byHash == a.byHash
                  && CounterMoves(a.periods, next.periods, key, charge - debit, now))
            && (r.Err? ==> next == a)
  {
    DebitIsCovered(a, imported, a.byHash[hash]);
    MsatRoundsUp(amountMsat);
    MsatRoundsUp(feeMsat);
  }

  /** Recording a settlement again changes nothing, and is accepted only for the same rounded amounts. */
  lemma SettlementRepeats(a: Accounts, grants: map<ConnectionId, Grant>, hash: PaymentHash, amountMsat: nat, feeMsat: nat, now: nat)
    requires Valid(a) && hash in a.byHash && a.attempts[a.byHash[hash]].state == Succeeded
    requires amountMsat + 999 <= U64_MAX && feeMsat + 999 <= U64_MAX
    ensures var t := a.attempts[a.byHash[hash]];
            var (next, r) := MarkSucceeded(a, grants, hash, amountMsat, feeMsat, now);
            && next == a
            && (r.Ok? <==> now <= I64_MAX && t.updatedAt <= now && SettledAs(t, amountMsat, feeMsat))
            && (r.Ok? ==> r.value == t)
  {
    MsatRoundsUp(amountMsat);
    MsatRoundsUp(feeMsat);
  }

  /** Amounts that cannot be rounded up in 64 bits, and attempts of an unknown connection, are not settled. */
  lemma UnsettledAmounts(a: Accounts, grants: map<ConnectionId, Grant>, hash: PaymentHash, amountMsat: nat, feeMsat: nat, now: nat)
    ensures amountMsat + 999 > U64_MAX || feeMsat + 999 > U64_MAX ==>
              MarkSucceeded(a, grants, hash, amountMsat, feeMsat, now) == (a, Err(ValueOutOfRange))
    ensures hash in a.byHash && a.byHash[hash] in a.attempts && a.attempts[a.byHash[hash]].connection !in grants ==>
              MarkSucceeded(a, grants, hash, amountMsat, feeMsat, now).0 == a
  {
  }
}
