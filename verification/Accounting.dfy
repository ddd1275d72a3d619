/**
 Durable payment accounting: attempts, their two unique indices and the debited budget
 periods. Each function is one committed transaction; an error leaves the tables as they were.
 */
module Accounting {
  import opened Types
  import Budget

  datatype PaymentState = Reserved | Pending | Succeeded | Failed

  datatype AccountingError =
    | DatabaseUnavailable
    | CorruptData
    | ValueOutOfRange
    | ConnectionUnavailable
    | InvalidAmount
    | BudgetExceeded
    | ReservationConflict
    | TerminalStateConflict

  datatype Attempt = Attempt(
    event: EventId,
    hash: PaymentHash,
    connection: ConnectionId,
    revision: nat,
    periodStart: nat,
    principalSat: nat,
    feeReserveSat: nat,
    state: PaymentState,
    actualPrincipalSat: Option<nat>,
    actualFeeSat: Option<nat>,
    chargedSat: Option<nat>,
    exceeded: bool,
    initiatedAt: Option<nat>,
    legacyAmbiguous: bool,
    createdAt: nat,
    updatedAt: nat)
  {
    predicate WasInitiated() {
      initiatedAt.Some?
    }

    predicate MayDiscloseSettlement() {
      WasInitiated() && !legacyAmbiguous && !state.Reserved?
    }

    function ReservedSat(): nat {
      principalSat + feeReserveSat
    }
  }

  datatype Period = Period(limitSat: nat, usedSat: nat, updatedAt: nat)

  /** One budget period of one connection. */
  datatype PeriodKey = PeriodKey(connection: ConnectionId, start: nat)

  /** The columns of a connection that accounting reads. */
  datatype Grant = Grant(revision: nat, active: bool, createdAt: nat, budget: Budget.Policy, expiresAt: Option<nat>, mayPay: bool)

  /** `attempts` and `byHash` are the primary key and the unique hash index of one table. */
  datatype Accounts = Accounts(
    attempts: map<EventId, Attempt>,
    byHash: map<PaymentHash, EventId>,
    periods: map<PeriodKey, Period>)

  datatype ReservationOutcome =
    | NewReservation(attempt: Attempt)
    | Existing(attempt: Attempt)
    | AlreadyTracked(attempt: Attempt)

  /** Millisatoshi to satoshi, rounding up, refusing the u64 overflow. */
  function MsatToSatCeil(msat: nat): Option<nat> {
    if msat + 999 > U64_MAX then None else Some((msat + 999) / 1_000)
  }

  /** Rounding up loses less than one satoshi and never undercharges. */
  lemma MsatRoundsUp(msat: nat)
    requires MsatToSatCeil(msat).Some?
    ensures var sat := MsatToSatCeil(msat).value; msat <= 1_000 * sat < msat + 1_000
    ensures MsatToSatCeil(msat).value == 0 <==> msat == 0
  {
    var x := msat + 999;
    assert x == x / 1_000 * 1_000 + x % 1_000;
  }

  function Lookup(a: Accounts, hash: PaymentHash): Option<Attempt> {
    if hash in a.byHash && a.byHash[hash] in a.attempts then Some(a.attempts[a.byHash[hash]]) else None
  }

  /** What an attempt currently debits from its period. */
  function Debit(attempt: Attempt): nat {
    match attempt.state
    case Reserved => attempt.ReservedSat()
    case Pending => attempt.ReservedSat()
    case Succeeded => if attempt.chargedSat.Some? then attempt.chargedSat.value else 0
    case Failed => 0
  }

  function KeyOf(attempt: Attempt): PeriodKey {
    PeriodKey(attempt.connection, attempt.periodStart)
  }

  /** The column checks of one payment row. */
  predicate RowCheck(t: Attempt) {
    && t.createdAt >= t.periodStart
    && t.updatedAt >= t.createdAt
    && (t.initiatedAt.Some? ==> t.initiatedAt.value >= t.createdAt)
    && match t.state {
         case Succeeded => t.actualPrincipalSat.Some? && t.actualFeeSat.Some? && t.chargedSat.Some?
         case _ => t.actualPrincipalSat.None? && t.actualFeeSat.None? && t.chargedSat.None? && !t.exceeded
       }
    && (!t.state.Reserved? ==> t.WasInitiated())
  }

  /** Row checks and agreement of the two unique indices. */
  ghost predicate Valid(a: Accounts) {
    && (forall e <- a.attempts ::
          && a.attempts[e].event == e
          && RowCheck(a.attempts[e])
          && a.attempts[e].hash in a.byHash
          && a.byHash[a.attempts[e].hash] == e
          && KeyOf(a.attempts[e]) in a.periods)
    && (forall h <- a.byHash :: a.byHash[h] in a.attempts && a.attempts[a.byHash[h]].hash == h)
    && (forall key <- a.periods :: Fits(a.periods[key].usedSat))
  }

  // ---- Reservation ----

  /** The connection row that may authorize a payment now. */
  predicate MayAuthorize(grants: map<ConnectionId, Grant>, connection: ConnectionId, revision: nat, now: nat) {
    && connection in grants
    && grants[connection].revision == revision
    && grants[connection].active
    && (grants[connection].expiresAt.None? || grants[connection].expiresAt.value > now)
    && grants[connection].mayPay
  }

  function NewAttempt(event: EventId, hash: PaymentHash, connection: ConnectionId, revision: nat, start: nat,
                      principal: nat, fee: nat, now: nat): Attempt
  {
    Attempt(event, hash, connection, revision, start, principal, fee, Reserved, None, None, None, false, None, false, now, now)
  }

  /** Atomically debits principal plus the maximum fee before any payment call. */
  function Reserve(a: Accounts, grants: map<ConnectionId, Grant>, event: EventId, hash: PaymentHash,
                   connection: ConnectionId, revision: nat, principal: nat, now: nat)
    : (Accounts, Result<ReservationOutcome, AccountingError>)
  {
    if principal == 0 then (a, Err(InvalidAmount))
    else if !Fits(now) || !Fits(revision) || !Fits(principal) then (a, Err(ValueOutOfRange))
    else if !MayAuthorize(grants, connection, revision, now) then (a, Err(ConnectionUnavailable))
    else
      var grant := grants[connection];
      match Budget.CheckedPeriodStart(grant.budget.interval, grant.createdAt, now)
      case Err(_) => (a, Err(ValueOutOfRange))
      case Ok(start) =>
        if event in a.attempts then
          var t := a.attempts[event];
          if t.hash == hash && t.connection == connection && t.revision == revision && t.principalSat == principal
          then (a, Ok(Existing(t)))
          else (a, Err(ReservationConflict))
        else if Lookup(a, hash).Some? then (a, Ok(AlreadyTracked(Lookup(a, hash).value)))
        else
          var fee := Budget.FeeReserve(grant.budget);
          var amount := principal + fee;
          var key := PeriodKey(connection, start);
          var period := if key in a.periods then a.periods[key] else Period(grant.budget.limitSat, 0, now);
          if !Fits(start) || !Fits(grant.budget.limitSat) || !Fits(fee) || !Fits(amount) then (a, Err(ValueOutOfRange))
          else if period.limitSat != grant.budget.limitSat then (a, Err(CorruptData))
          else if period.usedSat + amount > U64_MAX then (a, Err(ValueOutOfRange))
          else if period.usedSat + amount > grant.budget.limitSat then (a, Err(BudgetExceeded))
          else
            var t := NewAttempt(event, hash, connection, revision, start, principal, fee, now);
            (Accounts(a.attempts[event := t], a.byHash[hash := event],
                      a.periods[key := Period(period.limitSat, period.usedSat + amount, now)]),
             Ok(NewReservation(t)))
  }

  // ---- Transitions of one attempt, all addressed by payment hash ----

  /** Replaces what an attempt contributes to its period. */
  function AdjustPeriod(periods: map<PeriodKey, Period>, key: PeriodKey, before: nat, after: nat, now: nat)
    : Result<map<PeriodKey, Period>, AccountingError>
  {
    if key !in periods then Err(DatabaseUnavailable)
    else if periods[key].usedSat < before then Err(CorruptData)
    else
      var next := periods[key].usedSat - before + after;
      if next > U64_MAX then Err(CorruptData)
      else if !Fits(next) then Err(ValueOutOfRange)
      else Ok(periods[key := periods[key].(usedSat := next, updatedAt := now)])
  }

  function MarkInitiated(a: Accounts, hash: PaymentHash, now: nat): (Accounts, Result<Attempt, AccountingError>) {
    if !Fits(now) then (a, Err(ValueOutOfRange))
    else match Lookup(a, hash)
      case None => (a, Err(ReservationConflict))
      case Some(t) =>
        if now < t.updatedAt then (a, Err(ValueOutOfRange))
        else if t.WasInitiated() then (a, Ok(t))
        else if !t.state.Reserved? then (a, Err(TerminalStateConflict))
        else
          var marked := t.(initiatedAt := Some(now), updatedAt := now);
          (a.(attempts := a.attempts[a.byHash[hash] := marked]), Ok(marked))
  }

  function ReleaseUninitiated(a: Accounts, hash: PaymentHash, now: nat): (Accounts, Result<(), AccountingError>) {
    if !Fits(now) then (a, Err(ValueOutOfRange))
    else match Lookup(a, hash)
      case None => (a, Err(ReservationConflict))
      case Some(t) =>
        if now < t.updatedAt then (a, Err(ValueOutOfRange))
        else if !t.state.Reserved? || t.WasInitiated() then (a, Err(TerminalStateConflict))
        else match AdjustPeriod(a.periods, KeyOf(t), t.ReservedSat(), 0, now)
          case Err(error) => (a, Err(error))
          case Ok(periods) => (Accounts(a.attempts - {a.byHash[hash]}, a.byHash - {hash}, periods), Ok(()))
  }

  function MarkPending(a: Accounts, hash: PaymentHash, now: nat): (Accounts, Result<Attempt, AccountingError>) {
    if !Fits(now) then (a, Err(ValueOutOfRange))
    else match Lookup(a, hash)
      case None => (a, Err(ReservationConflict))
      case Some(t) =>
        if now < t.updatedAt then (a, Err(ValueOutOfRange))
        else if !t.WasInitiated() then (a, Err(TerminalStateConflict))
        else match t.state
          case Reserved =>
            var pending := t.(state := Pending, updatedAt := now);
            (a.(attempts := a.attempts[a.byHash[hash] := pending]), Ok(pending))
          case Pending => (a, Ok(t))
          case _ => (a, Err(TerminalStateConflict))
  }

  function MarkFailed(a: Accounts, hash: PaymentHash, now: nat): (Accounts, Result<Attempt, AccountingError>) {
    if !Fits(now) then (a, Err(ValueOutOfRange))
    else match Lookup(a, hash)
      case None => (a, Err(ReservationConflict))
      case Some(t) =>
        if now < t.updatedAt then (a, Err(ValueOutOfRange))
        else if !t.WasInitiated() then (a, Err(TerminalStateConflict))
        else match t.state
          case Succeeded => (a, Err(TerminalStateConflict))
          case Failed => (a, Ok(t))
          case _ =>
            match AdjustPeriod(a.periods, KeyOf(t), t.ReservedSat(), 0, now)
            case Err(error) => (a, Err(error))
            case Ok(periods) =>
              var failed := t.(state := Failed, updatedAt := now);
              (Accounts(a.attempts[a.byHash[hash] := failed], a.byHash, periods), Ok(failed))
  }

  /** The amount a settlement charges to the budget. */
  function Charge(policy: Budget.Policy, principal: nat, fee: nat): nat {
    if policy.feePolicy.CountTowardBudget? then principal + fee else principal
  }

  function MarkSucceeded(a: Accounts, grants: map<ConnectionId, Grant>, hash: PaymentHash,
                         principalMsat: nat, feeMsat: nat, now: nat): (Accounts, Result<Attempt, AccountingError>)
  {
    var principal, fee := MsatToSatCeil(principalMsat), MsatToSatCeil(feeMsat);
    if principal.None? || fee.None? || !Fits(now) || !Fits(principal.value) || !Fits(fee.value)
    then (a, Err(ValueOutOfRange))
    else match Lookup(a, hash)
      case None => (a, Err(ReservationConflict))
      case Some(t) =>
        if now < t.updatedAt then (a, Err(ValueOutOfRange))
        else if !t.WasInitiated() then (a, Err(TerminalStateConflict))
        else if t.state.Succeeded? then
          if t.actualPrincipalSat == principal && t.actualFeeSat == fee then (a, Ok(t))
          else (a, Err(TerminalStateConflict))
        else if t.connection !in grants then (a, Err(DatabaseUnavailable))
        else
          var policy := grants[t.connection].budget;
          var charged := Charge(policy, principal.value, fee.value);
          if charged > U64_MAX then (a, Err(ValueOutOfRange))
          else match AdjustPeriod(a.periods, KeyOf(t), Debit(t), charged, now)
            case Err(error) => (a, Err(error))
            case Ok(periods) =>
              var exceeded := principal.value > t.principalSat
                              || (policy.feePolicy.CountTowardBudget? && fee.value > t.feeReserveSat);
              var settled := t.(state := Succeeded, actualPrincipalSat := principal, actualFeeSat := fee,
                                chargedSat := Some(charged), exceeded := exceeded, updatedAt := now);
              (Accounts(a.attempts[a.byHash[hash] := settled], a.byHash, periods), Ok(settled))
  }

  // ---- Conservation ----

  ghost function Share(attempt: Attempt, key: PeriodKey): nat {
    if KeyOf(attempt) == key then Debit(attempt) else 0
  }

  /** Everything the attempts of one table debit from one period. */
  ghost function Held(attempts: map<EventId, Attempt>, key: PeriodKey): nat
    decreases |attempts|
  {
    if attempts == map[] then 0
    else
      var e :| e in attempts;
      Share(attempts[e], key) + Held(attempts - {e}, key)
  }

  lemma {:induction false} HeldWithout(attempts: map<EventId, Attempt>, e: EventId, key: PeriodKey)
    requires e in attempts
    ensures Held(attempts, key) == Share(attempts[e], key) + Held(attempts - {e}, key)
    decreases |attempts|
  {
    var d :| d in attempts && Held(attempts, key) == Share(attempts[d], key) + Held(attempts - {d}, key);
    if d != e {
      HeldWithout(attempts - {d}, e, key);
      HeldWithout(attempts - {e}, d, key);
      assert attempts - {d} - {e} == attempts - {e} - {d};
    }
  }

  lemma HeldAfterUpdate(attempts: map<EventId, Attempt>, e: EventId, t: Attempt, key: PeriodKey)
    ensures Held(attempts[e := t], key) ==
      Share(t, key) + (if e in attempts then Held(attempts, key) - Share(attempts[e], key) else Held(attempts, key))
  {
    HeldWithout(attempts[e := t], e, key);
    assert attempts[e := t] - {e} == attempts - {e};
    if e in attempts {
      HeldWithout(attempts, e, key);
    } else {
      assert attempts - {e} == attempts;
    }
  }

  function Imported(imported: map<PeriodKey, nat>, key: PeriodKey): nat {
    if key in imported then imported[key] else 0
  }

  /** Every period's counter is what was imported into it plus what the attempts hold. */
  ghost predicate Balanced(a: Accounts, imported: map<PeriodKey, nat>) {
    forall key <- a.periods :: a.periods[key].usedSat == Imported(imported, key) + Held(a.attempts, key)
  }

  /** Periods that were imported exist from the start. */
  ghost predicate ImportsPresent(a: Accounts, imported: map<PeriodKey, nat>) {
    imported.Keys <= a.periods.Keys
  }

  ghost predicate Sound(a: Accounts, imported: map<PeriodKey, nat>) {
    Valid(a) && Balanced(a, imported) && ImportsPresent(a, imported)
  }

  /** An attempt whose period is not yet in the table contributes nothing anywhere. */
  lemma {:induction false} NothingHeldInMissingPeriod(attempts: map<EventId, Attempt>, key: PeriodKey)
    requires forall e <- attempts :: KeyOf(attempts[e]) != key
    ensures Held(attempts, key) == 0
    decreases |attempts|
  {
    if attempts != map[] {
      var d :| d in attempts && Held(attempts, key) == Share(attempts[d], key) + Held(attempts - {d}, key);
      assert Share(attempts[d], key) == 0;
      NothingHeldInMissingPeriod(attempts - {d}, key);
    } else {
      assert Held(attempts, key) == 0;
    }
  }

  /** A debited attempt never exceeds the counter of its period, so refunds cannot underflow. */
  lemma DebitIsCovered(a: Accounts, imported: map<PeriodKey, nat>, e: EventId)
    requires Sound(a, imported) && e in a.attempts
    ensures KeyOf(a.attempts[e]) in a.periods
    ensures Debit(a.attempts[e]) <= a.periods[KeyOf(a.attempts[e])].usedSat
  {
    HeldWithout(a.attempts, e, KeyOf(a.attempts[e]));
  }

  /** Replacing one attempt and its share of its own period keeps the books balanced. */
  lemma ReplacementKeepsBalance(a: Accounts, imported: map<PeriodKey, nat>, e: EventId, t: Attempt,
                                periods: map<PeriodKey, Period>)
    requires Sound(a, imported) && e in a.attempts
    requires KeyOf(t) == KeyOf(a.attempts[e]) && t.event == e && t.hash == a.attempts[e].hash && RowCheck(t)
    requires periods.Keys == a.periods.Keys
    requires forall key <- periods :: Fits(periods[key].usedSat)
    requires forall key <- periods ::
               periods[key].usedSat == a.periods[key].usedSat - Share(a.attempts[e], key) + Share(t, key)
    ensures Sound(Accounts(a.attempts[e := t], a.byHash, periods), imported)
  {
    var next := Accounts(a.attempts[e := t], a.byHash, periods);
    forall key | key in periods
      ensures periods[key].usedSat == Imported(imported, key) + Held(next.attempts, key)
    {
      HeldAfterUpdate(a.attempts, e, t, key);
    }
  }

  /** Adding one attempt together with its debit keeps the books balanced. */
  lemma InsertionKeepsBalance(a: Accounts, imported: map<PeriodKey, nat>, t: Attempt, periods: map<PeriodKey, Period>)
    requires Sound(a, imported)
    requires t.event !in a.attempts && t.hash !in a.byHash && RowCheck(t)
    requires periods.Keys == a.periods.Keys + {KeyOf(t)}
    requires forall key <- periods :: Fits(periods[key].usedSat)
    requires forall key <- periods ::
               periods[key].usedSat == (if key in a.periods then a.periods[key].usedSat else 0) + Share(t, key)
    ensures Sound(Accounts(a.attempts[t.event := t], a.byHash[t.hash := t.event], periods), imported)
  {
    var next := Accounts(a.attempts[t.event := t], a.byHash[t.hash := t.event], periods);
    forall key | key in periods
      ensures periods[key].usedSat == Imported(imported, key) + Held(next.attempts, key)
    {
      HeldAfterUpdate(a.attempts, t.event, t, key);
      if key !in a.periods {
        NothingHeldInMissingPeriod(a.attempts, key);
      }
    }
  }

  /** What a granted reservation writes. */
  lemma ReserveWrites(a: Accounts, grants: map<ConnectionId, Grant>, event: EventId,
                      hash: PaymentHash, connection: ConnectionId, revision: nat, principal: nat, now: nat)
    requires Valid(a)
    ensures var (next, r) := Reserve(a, grants, event, hash, connection, revision, principal, now);
            if r.Ok? && r.value.NewReservation? then
              var t := r.value.attempt;
              && MayAuthorize(grants, connection, revision, now)
              && t == NewAttempt(event, hash, connection, revision, t.periodStart, principal,
                                 Budget.FeeReserve(grants[connection].budget), now)
              && event !in a.attempts && hash !in a.byHash && RowCheck(t)
              && next == Accounts(a.attempts[event := t], a.byHash[hash := event], next.periods)
              && next.periods.Keys == a.periods.Keys + {KeyOf(t)}
              && (forall key <- next.periods :: Fits(next.periods[key].usedSat))
              && (forall key <- next.periods ::
                    next.periods[key].usedSat == (if key in a.periods then a.periods[key].usedSat else 0) + Share(t, key))
            else next == a
  {
    if connection in grants && now <= U64_MAX {
      Budget.PeriodStartsAgree(grants[connection].budget.interval, grants[connection].createdAt, now);
    }
  }

  /** An attempt is found under its own hash. */
  lemma OwnRow(a: Accounts, e: EventId)
    requires Valid(a) && e in a.attempts
    ensures Lookup(a, a.attempts[e].hash) == Some(a.attempts[e]) && a.byHash[a.attempts[e].hash] == e
  {
  }

  lemma ReserveIsSound(a: Accounts, imported: map<PeriodKey, nat>, grants: map<ConnectionId, Grant>, event: EventId,
                       hash: PaymentHash, connection: ConnectionId, revision: nat, principal: nat, now: nat)
    requires Sound(a, imported)
    ensures Sound(Reserve(a, grants, event, hash, connection, revision, principal, now).0, imported)
    ensures Reserve(a, grants, event, hash, connection, revision, principal, now).0.periods.Keys
         <= a.periods.Keys + (set key <- Reserve(a, grants, event, hash, connection, revision, principal, now).0.periods.Keys
                              | key.connection in grants)
  {
    ReserveWrites(a, grants, event, hash, connection, revision, principal, now);
    var (next, r) := Reserve(a, grants, event, hash, connection, revision, principal, now);
    if r.Ok? && r.value.NewReservation? {
      InsertionKeepsBalance(a, imported, r.value.attempt, next.periods);
    }
  }

  /**
   Repeating a granted reservation at any later authorized time returns the same attempt, another event
   with the same hash learns that it is tracked, and neither debits again.
   */
  lemma ReservationRepeats(a: Accounts, grants: map<ConnectionId, Grant>, event: EventId, hash: PaymentHash,
                           connection: ConnectionId, revision: nat, principal: nat, now: nat, later: nat, other: EventId)
    requires Valid(a)
    requires var r := Reserve(a, grants, event, hash, connection, revision, principal, now).1; r.Ok? && r.value.NewReservation?
    requires Fits(later) && now <= later
    requires connection in grants && grants[connection].revision == revision && grants[connection].active && grants[connection].mayPay
    requires grants[connection].expiresAt.Some? ==> grants[connection].expiresAt.value > later
    requires other != event && other !in a.attempts
    ensures var (next, r) := Reserve(a, grants, event, hash, connection, revision, principal, now);
            && Reserve(next, grants, event, hash, connection, revision, principal, later) == (next, Ok(Existing(r.value.attempt)))
            && Reserve(next, grants, other, hash, connection, revision, principal, later) == (next, Ok(AlreadyTracked(r.value.attempt)))
  {
    Budget.PeriodStartsAgree(grants[connection].budget.interval, grants[connection].createdAt, now);
    Budget.PeriodStartsAgree(grants[connection].budget.interval, grants[connection].createdAt, later);
  }

  /** What a period has used, if it was opened. */
  function UsedIn(a: Accounts, key: PeriodKey): nat {
    if key in a.periods then a.periods[key].usedSat else 0
  }

  /** The maximum fee, where fees count toward the budget. */
  function ReservedFee(policy: Budget.FeePolicy): nat {
    if policy.CountTowardBudget? then policy.maximumFeeSat else 0
  }

  /**
   For a new event and hash under a live authorization a reservation is granted exactly when principal,
   fee reserve and what the period already used fit the limit together, and refused as over budget otherwise.
   */
  lemma BudgetDecides(a: Accounts, grants: map<ConnectionId, Grant>, event: EventId, hash: PaymentHash,
                      connection: ConnectionId, revision: nat, principal: nat, now: nat)
    requires Valid(a) && event !in a.attempts && hash !in a.byHash
    requires principal > 0 && Fits(now) && Fits(revision)
    requires connection in grants && grants[connection].revision == revision && grants[connection].active && grants[connection].mayPay
    requires grants[connection].expiresAt.Some? ==> grants[connection].expiresAt.value > now
    requires grants[connection].createdAt <= now
    requires Fits(grants[connection].budget.limitSat) && Fits(principal + ReservedFee(grants[connection].budget.feePolicy))
    requires forall key <- a.periods :: key.connection == connection ==> a.periods[key].limitSat == grants[connection].budget.limitSat
    ensures var grant := grants[connection];
            var start := Budget.CheckedPeriodStart(grant.budget.interval, grant.createdAt, now);
            && start.Ok?
            && var key := PeriodKey(connection, start.value);
            var fits := UsedIn(a, key) + principal + ReservedFee(grant.budget.feePolicy) <= grant.budget.limitSat;
            var (next, r) := Reserve(a, grants, event, hash, connection, revision, principal, now);
            && (r.Ok? <==> fits)
            && (r.Ok? ==> r.value.NewReservation? && UsedIn(next, key) <= grant.budget.limitSat)
            && (r.Err? ==> r.error == BudgetExceeded && next == a)
  {
    Budget.PeriodStartsAgree(grants[connection].budget.interval, grants[connection].createdAt, now);
  }

  /** A settlement charges the actual payment, rounded up by less than one satoshi for each part. */
  lemma SettlementChargesActual(a: Accounts, grants: map<ConnectionId, Grant>, hash: PaymentHash,
                                principalMsat: nat, feeMsat: nat, now: nat)
    requires Valid(a) && Lookup(a, hash).Some? && !Lookup(a, hash).value.state.Succeeded?
    requires MarkSucceeded(a, grants, hash, principalMsat, feeMsat, now).1.Ok?
    ensures var was, t := Lookup(a, hash).value, MarkSucceeded(a, grants, hash, principalMsat, feeMsat, now).1.value;
            var counted := grants[was.connection].budget.feePolicy.CountTowardBudget?;
            var actual := principalMsat + (if counted then feeMsat else 0);
            && t.state.Succeeded? && actual <= 1_000 * Debit(t) < actual + 2_000
            && (t.exceeded <==> principalMsat > 1_000 * was.principalSat || (counted && feeMsat > 1_000 * was.feeReserveSat))
  {
    MsatRoundsUp(principalMsat);
    MsatRoundsUp(feeMsat);
  }

  lemma MarksAreSound(a: Accounts, imported: map<PeriodKey, nat>, hash: PaymentHash, now: nat)
    requires Sound(a, imported)
    ensures Sound(MarkInitiated(a, hash, now).0, imported)
    ensures Sound(MarkPending(a, hash, now).0, imported)
    ensures MarkInitiated(a, hash, now).0.periods == MarkPending(a, hash, now).0.periods == a.periods
  {
    if Lookup(a, hash).Some? {
      var e, t := a.byHash[hash], Lookup(a, hash).value;
      if now >= t.updatedAt && t.state.Reserved? {
        SameDebitKeepsSound(a, imported, e, t.(initiatedAt := Some(now), updatedAt := now));
        if t.WasInitiated() {
          SameDebitKeepsSound(a, imported, e, t.(state := Pending, updatedAt := now));
        }
      }
    }
  }

  /** Replacing a row that debits the same amount. */
  lemma SameDebitKeepsSound(a: Accounts, imported: map<PeriodKey, nat>, e: EventId, t: Attempt)
    requires Sound(a, imported) && e in a.attempts
    requires KeyOf(t) == KeyOf(a.attempts[e]) && t.event == e && t.hash == a.attempts[e].hash && RowCheck(t)
    requires Debit(t) == Debit(a.attempts[e])
    ensures Sound(a.(attempts := a.attempts[e := t]), imported)
  {
    ReplacementKeepsBalance(a, imported, e, t, a.periods);
  }

  lemma MarkFailedIsSound(a: Accounts, imported: map<PeriodKey, nat>, hash: PaymentHash, now: nat)
    requires Sound(a, imported)
    ensures Sound(MarkFailed(a, hash, now).0, imported)
    ensures MarkFailed(a, hash, now).0.periods.Keys == a.periods.Keys
    ensures MarkFailed(a, hash, now).1.Err? ==> MarkFailed(a, hash, now).1.error != CorruptData
  {
    if Lookup(a, hash).Some? {
      var e, t := a.byHash[hash], Lookup(a, hash).value;
      DebitIsCovered(a, imported, e);
      var (next, r) := MarkFailed(a, hash, now);
      if r.Ok? && next != a {
        ReplacementKeepsBalance(a, imported, e, t.(state := Failed, updatedAt := now), next.periods);
      }
    }
  }

  lemma MarkSucceededIsSound(a: Accounts, imported: map<PeriodKey, nat>, grants: map<ConnectionId, Grant>,
                             hash: PaymentHash, principalMsat: nat, feeMsat: nat, now: nat)
    requires Sound(a, imported)
    ensures Sound(MarkSucceeded(a, grants, hash, principalMsat, feeMsat, now).0, imported)
    ensures MarkSucceeded(a, grants, hash, principalMsat, feeMsat, now).0.periods.Keys == a.periods.Keys
  {
    if Lookup(a, hash).Some? {
      var e := a.byHash[hash];
      DebitIsCovered(a, imported, e);
      var (next, r) := MarkSucceeded(a, grants, hash, principalMsat, feeMsat, now);
      if r.Ok? && next != a {
        ReplacementKeepsBalance(a, imported, e, r.value, next.periods);
      }
    }
  }

  /** Deleting one attempt together with its debit keeps the books balanced. */
  lemma DeletionKeepsBalance(a: Accounts, imported: map<PeriodKey, nat>, e: EventId, periods: map<PeriodKey, Period>)
    requires Sound(a, imported) && e in a.attempts
    requires periods.Keys == a.periods.Keys
    requires forall key <- periods :: Fits(periods[key].usedSat)
    requires forall key <- periods :: periods[key].usedSat == a.periods[key].usedSat - Share(a.attempts[e], key)
    ensures Sound(Accounts(a.attempts - {e}, a.byHash - {a.attempts[e].hash}, periods), imported)
  {
    var next := Accounts(a.attempts - {e}, a.byHash - {a.attempts[e].hash}, periods);
    forall key | key in periods
      ensures periods[key].usedSat == Imported(imported, key) + Held(next.attempts, key)
    {
      HeldWithout(a.attempts, e, key);
    }
  }

  lemma ReleaseIsSound(a: Accounts, imported: map<PeriodKey, nat>, hash: PaymentHash, now: nat)
    requires Sound(a, imported)
    ensures Sound(ReleaseUninitiated(a, hash, now).0, imported)
    ensures ReleaseUninitiated(a, hash, now).0.periods.Keys == a.periods.Keys
    ensures ReleaseUninitiated(a, hash, now).1.Err? ==> ReleaseUninitiated(a, hash, now).1.error != CorruptData
  {
    if Lookup(a, hash).Some? {
      var e := a.byHash[hash];
      DebitIsCovered(a, imported, e);
      var (next, r) := ReleaseUninitiated(a, hash, now);
      if r.Ok? {
        DeletionKeepsBalance(a, imported, e, next.periods);
      }
    }
  }

  /** A row may be replaced by a later version of the same attempt. */
  predicate Later(t: Attempt, t': Attempt) {
    && t'.hash == t.hash && t'.feeReserveSat == t.feeReserveSat && t'.legacyAmbiguous == t.legacyAmbiguous
    && (t.WasInitiated() ==> t'.WasInitiated())
    && (t.state.Succeeded? ==> t'.state.Succeeded?)
  }

  /** Recording a status touches only the row found under the hash, and moves it forward. */
  lemma RecordsMoveForward(a: Accounts, grants: map<ConnectionId, Grant>, e: EventId, principalMsat: nat, feeMsat: nat, now: nat)
    requires Valid(a) && e in a.attempts && a.attempts[e].WasInitiated()
    ensures var t := a.attempts[e];
            var (pending, _) := MarkPending(a, t.hash, now);
            var (failed, f) := MarkFailed(a, t.hash, now);
            var (settled, s) := MarkSucceeded(a, grants, t.hash, principalMsat, feeMsat, now);
            && e in pending.attempts && e in failed.attempts && e in settled.attempts
            && pending.attempts == a.attempts[e := pending.attempts[e]] && Later(t, pending.attempts[e])
            && failed.attempts == a.attempts[e := failed.attempts[e]] && Later(t, failed.attempts[e])
            && settled.attempts == a.attempts[e := settled.attempts[e]] && Later(t, settled.attempts[e])
            && (pending.attempts[e].state == t.state || pending.attempts[e].state.Pending?)
            && (failed.attempts[e].state == t.state || failed.attempts[e].state.Failed?)
            && (settled.attempts[e].state == t.state || settled.attempts[e].state.Succeeded?)
            && (s.Ok? ==> settled.attempts[e].state.Succeeded?)
            && (f.Ok? ==> failed.attempts[e].state.Failed?)
  {
    OwnRow(a, e);
    assert a.attempts == a.attempts[e := a.attempts[e]];
  }

  /** Releasing undoes a new reservation: the tables differ only in update times and an opened period. */
  lemma ReleaseUndoesReserve(a: Accounts, grants: map<ConnectionId, Grant>, event: EventId, hash: PaymentHash,
                             connection: ConnectionId, revision: nat, principal: nat, now: nat, later: nat)
    requires Valid(a)
    requires Reserve(a, grants, event, hash, connection, revision, principal, now).1.Ok?
    requires Reserve(a, grants, event, hash, connection, revision, principal, now).1.value.NewReservation?
    requires now <= later && Fits(later)
    ensures var (reserved, _) := Reserve(a, grants, event, hash, connection, revision, principal, now);
            var (released, r) := ReleaseUninitiated(reserved, hash, later);
            && r.Ok?
            && released.attempts == a.attempts
            && released.byHash == a.byHash
            && a.periods.Keys <= released.periods.Keys
            && (forall key <- a.periods :: released.periods[key].usedSat == a.periods[key].usedSat)
            && (forall key <- released.periods :: key !in a.periods ==> released.periods[key].usedSat == 0)
  {
    var (reserved, r) := Reserve(a, grants, event, hash, connection, revision, principal, now);
    ReserveWrites(a, grants, event, hash, connection, revision, principal, now);
    NewReservationIsReleased(a, reserved, r.value.attempt, later);
  }

  /** Releasing a reservation whose debit is what it added to its period. */
  lemma NewReservationIsReleased(a: Accounts, reserved: Accounts, t: Attempt, later: nat)
    requires RowCheck(t) && t.state.Reserved? && !t.WasInitiated() && !t.legacyAmbiguous
    requires t.updatedAt <= later && Fits(later)
    requires t.event !in a.attempts && t.hash !in a.byHash
    requires reserved == Accounts(a.attempts[t.event := t], a.byHash[t.hash := t.event], reserved.periods)
    requires reserved.periods.Keys == a.periods.Keys + {KeyOf(t)} && forall key <- a.periods :: Fits(a.periods[key].usedSat)
    requires forall key <- reserved.periods :: reserved.periods[key].usedSat == (if key in a.periods then a.periods[key].usedSat else 0) + Share(t, key)
    ensures var (released, r) := ReleaseUninitiated(reserved, t.hash, later);
            && r.Ok?
            && released.attempts == a.attempts && released.byHash == a.byHash
            && a.periods.Keys <= released.periods.Keys
            && (forall key <- a.periods :: released.periods[key].usedSat == a.periods[key].usedSat)
            && (forall key <- released.periods :: key !in a.periods ==> released.periods[key].usedSat == 0)
  {
    assert reserved.attempts - {t.event} == a.attempts;
    assert reserved.byHash - {t.hash} == a.byHash;
  }

  // ---- The ledger methods themselves ----

  /** The payment tables of the ledger, updated in place by short transactions. */
  class PaymentTables {
    var attempts: map<EventId, Attempt>
    var byHash: map<PaymentHash, EventId>
    var periods: map<PeriodKey, Period>

    ghost function Contents(): Accounts
      reads this
    {
      Accounts(attempts, byHash, periods)
    }

    constructor ()
      ensures Contents() == Accounts(map[], map[], map[])
    {
      attempts, byHash, periods := map[], map[], map[];
    }

    method LoadByHash(hash: PaymentHash) returns (found: Option<Attempt>)
      ensures found == Lookup(Contents(), hash)
    {
      if hash in byHash && byHash[hash] in attempts {
        return Some(attempts[byHash[hash]]);
      }
      return None;
    }

    method AdjustPeriodUsed(key: PeriodKey, before: nat, after: nat, now: nat) returns (r: Result<(), AccountingError>)
      modifies this`periods
      ensures match AdjustPeriod(old(periods), key, before, after, now)
              case Ok(next) => r == Ok(()) && periods == next
              case Err(error) => r == Err(error) && periods == old(periods)
    {
      if key !in periods {
        return Err(DatabaseUnavailable);
      }
      var used := periods[key].usedSat;
      if used < before || used - before + after > U64_MAX {
        return Err(CorruptData);
      }
      if !Fits(used - before + after) {
        return Err(ValueOutOfRange);
      }
      periods := periods[key := periods[key].(usedSat := used - before + after, updatedAt := now)];
      return Ok(());
    }

    method ReservePayment(grants: map<ConnectionId, Grant>, event: EventId, hash: PaymentHash,
                          connection: ConnectionId, revision: nat, principal: nat, now: nat)
      returns (r: Result<ReservationOutcome, AccountingError>)
      modifies this
      ensures (Contents(), r) == Reserve(old(Contents()), grants, event, hash, connection, revision, principal, now)
    {
      if principal == 0 {
        return Err(InvalidAmount);
      }
      if !Fits(now) || !Fits(revision) || !Fits(principal) {
        return Err(ValueOutOfRange);
      }
      if !MayAuthorize(grants, connection, revision, now) {
        return Err(ConnectionUnavailable);
      }
      var budget := grants[connection].budget;
      var periodStart := Budget.CheckedPeriodStart(budget.interval, grants[connection].createdAt, now);
      if periodStart.Err? {
        return Err(ValueOutOfRange);
      }
      if event in attempts {
        var existing := attempts[event];
        if existing.hash == hash && existing.connection == connection
           && existing.revision == revision && existing.principalSat == principal {
          return Ok(Existing(existing));
        }
        return Err(ReservationConflict);
      }
      var tracked := LoadByHash(hash);
      if tracked.Some? {
        return Ok(AlreadyTracked(tracked.value));
      }
      var start, fee := periodStart.value, Budget.FeeReserve(budget);
      var amount := principal + fee;
      if !Fits(start) || !Fits(budget.limitSat) || !Fits(fee) || !Fits(amount) {
        return Err(ValueOutOfRange);
      }
      var key := PeriodKey(connection, start);
      var period := if key in periods then periods[key] else Period(budget.limitSat, 0, now);
      if period.limitSat != budget.limitSat {
        return Err(CorruptData);
      }
      if period.usedSat + amount > U64_MAX {
        return Err(ValueOutOfRange);
      }
      if period.usedSat + amount > budget.limitSat {
        return Err(BudgetExceeded);
      }
      var attempt := NewAttempt(event, hash, connection, revision, start, principal, fee, now);
      periods := periods[key := Period(period.limitSat, period.usedSat + amount, now)];
      attempts := attempts[event := attempt];
      byHash := byHash[hash := event];
      return Ok(NewReservation(attempt));
    }

    method MarkPaymentInitiated(hash: PaymentHash, now: nat) returns (r: Result<Attempt, AccountingError>)
      modifies this
      ensures (Contents(), r) == MarkInitiated(old(Contents()), hash, now)
    {
      if !Fits(now) {
        return Err(ValueOutOfRange);
      }
      var loaded := LoadByHash(hash);
      if loaded.None? {
        return Err(ReservationConflict);
      }
      var attempt := loaded.value;
      if now < attempt.updatedAt {
        return Err(ValueOutOfRange);
      }
      if attempt.initiatedAt.Some? {
        return Ok(attempt);
      }
      if attempt.state != Reserved {
        return Err(TerminalStateConflict);
      }
      attempt := attempt.(initiatedAt := Some(now), updatedAt := now);
      attempts := attempts[byHash[hash] := attempt];
      return Ok(attempt);
    }

    method ReleaseUninitiatedPayment(hash: PaymentHash, now: nat) returns (r: Result<(), AccountingError>)
      modifies this
      ensures (Contents(), r) == ReleaseUninitiated(old(Contents()), hash, now)
    {
      if !Fits(now) {
        return Err(ValueOutOfRange);
      }
      var loaded := LoadByHash(hash);
      if loaded.None? {
        return Err(ReservationConflict);
      }
      var attempt := loaded.value;
      if now < attempt.updatedAt {
        return Err(ValueOutOfRange);
      }
      if attempt.state != Reserved || attempt.initiatedAt.Some? {
        return Err(TerminalStateConflict);
      }
      var adjusted := AdjustPeriodUsed(KeyOf(attempt), attempt.ReservedSat(), 0, now);
      if adjusted.Err? {
        return Err(adjusted.error);
      }
      attempts := attempts - {byHash[hash]};
      byHash := byHash - {hash};
      return Ok(());
    }

    method MarkPaymentPending(hash: PaymentHash, now: nat) returns (r: Result<Attempt, AccountingError>)
      modifies this
      ensures (Contents(), r) == MarkPending(old(Contents()), hash, now)
    {
      if !Fits(now) {
        return Err(ValueOutOfRange);
      }
      var loaded := LoadByHash(hash);
      if loaded.None? {
        return Err(ReservationConflict);
      }
      var attempt := loaded.value;
      if now < attempt.updatedAt {
        return Err(ValueOutOfRange);
      }
      if attempt.initiatedAt.None? {
        return Err(TerminalStateConflict);
      }
      if attempt.state == Pending {
        return Ok(attempt);
      }
      if attempt.state != Reserved {
        return Err(TerminalStateConflict);
      }
      attempt := attempt.(state := Pending, updatedAt := now);
      attempts := attempts[byHash[hash] := attempt];
      return Ok(attempt);
    }

    method MarkPaymentFailed(hash: PaymentHash, now: nat) returns (r: Result<Attempt, AccountingError>)
      modifies this
      ensures (Contents(), r) == MarkFailed(old(Contents()), hash, now)
    {
      if !Fits(now) {
        return Err(ValueOutOfRange);
      }
      var loaded := LoadByHash(hash);
      if loaded.None? {
        return Err(ReservationConflict);
      }
      var attempt := loaded.value;
      if now < attempt.updatedAt {
        return Err(ValueOutOfRange);
      }
      if attempt.initiatedAt.None? || attempt.state == Succeeded {
        return Err(TerminalStateConflict);
      }
      if attempt.state == Failed {
        return Ok(attempt);
      }
      var adjusted := AdjustPeriodUsed(KeyOf(attempt), attempt.ReservedSat(), 0, now);
      if adjusted.Err? {
        return Err(adjusted.error);
      }
      attempt := attempt.(state := Failed, updatedAt := now);
      attempts := attempts[byHash[hash] := attempt];
      return Ok(attempt);
    }

    method MarkPaymentSucceeded(grants: map<ConnectionId, Grant>, hash: PaymentHash, principalMsat: nat, feeMsat: nat, now: nat)
      returns (r: Result<Attempt, AccountingError>)
      modifies this
      ensures (Contents(), r) == MarkSucceeded(old(Contents()), grants, hash, principalMsat, feeMsat, now)
    {
      var principal, fee := MsatToSatCeil(principalMsat), MsatToSatCeil(feeMsat);
      if principal.None? || fee.None? || !Fits(now) || !Fits(principal.value) || !Fits(fee.value) {
        return Err(ValueOutOfRange);
      }
      var loaded := LoadByHash(hash);
      if loaded.None? {
        return Err(ReservationConflict);
      }
      var attempt := loaded.value;
      if now < attempt.updatedAt {
        return Err(ValueOutOfRange);
      }
      if attempt.initiatedAt.None? {
        return Err(TerminalStateConflict);
      }
      if attempt.state == Succeeded {
        if attempt.actualPrincipalSat == principal && attempt.actualFeeSat == fee {
          return Ok(attempt);
        }
        return Err(TerminalStateConflict);
      }
      if attempt.connection !in grants {
        return Err(DatabaseUnavailable);
      }
      var policy := grants[attempt.connection].budget;
      var charged := Charge(policy, principal.value, fee.value);
      if charged > U64_MAX {
        return Err(ValueOutOfRange);
      }
      var adjusted := AdjustPeriodUsed(KeyOf(attempt), Debit(attempt), charged, now);
      if adjusted.Err? {
        return Err(adjusted.error);
      }
      var exceeded := principal.value > attempt.principalSat
                      || (policy.feePolicy.CountTowardBudget? && fee.value > attempt.feeReserveSat);
      attempt := attempt.(state := Succeeded, actualPrincipalSat := principal, actualFeeSat := fee,
                          chargedSat := Some(charged), exceeded := exceeded, updatedAt := now);
      attempts := attempts[byHash[hash] := attempt];
      return Ok(attempt);
    }
  }
}
