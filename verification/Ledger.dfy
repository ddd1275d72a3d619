/**
 The wake-event ledger. Several processes share one table of event rows; each method is one
 short transaction, fenced by the random token of the current claim and by a not-before time.
 Clock values are arbitrary parameters: processes may disagree and clocks may run backwards.
 */
module Ledger {
  import opened Types

  const MAX_RESPONSE_EVENT_BYTES: nat := 131_072
  const MAX_PRUNE_BATCH: nat := 1_000

  datatype EventState = Claimed | Retryable | Terminal

  datatype TerminalKind = Completed | Rejected | Failed

  /** One row of the event table, column by column. */
  datatype EventRow = EventRow(
    connection: ConnectionId,
    revision: nat,
    state: EventState,
    token: Option<Token>,
    availableAt: Option<nat>,
    updatedAt: nat,
    kind: Option<TerminalKind>,
    response: Option<string>,
    requestMethod: Option<NwcMethod>,
    accepted: bool)

  /** What the ledger reads of a connection row. */
  datatype Authority = Authority(revision: nat, active: bool)

  datatype EventLease = EventLease(event: EventId, token: Token, resumed: bool, freshnessAccepted: bool)

  datatype TerminalEvent = TerminalEvent(
    event: EventId, kind: TerminalKind, response: Option<string>, requestMethod: Option<NwcMethod>, completedAt: nat)

  datatype ClaimOutcome =
    | Acquired(lease: EventLease)
    | InProgress(retryAfterSeconds: nat)
    | AlreadyTerminal(terminal: TerminalEvent)

  datatype LedgerError =
    | ValueOutOfRange
    | InvalidLease
    | ClaimMetadataMismatch
    | CorruptData
    | RandomnessUnavailable
    | ResponseTooLarge
    | LostLease
    | ConnectionUnavailable
    | InvalidPruneBatch
    | DatabaseUnavailable

  /** The table's CHECK constraints. */
  predicate RowCheck(row: EventRow) {
    && (row.response.Some? ==> |row.response.value| <= MAX_RESPONSE_EVENT_BYTES)
    && match row.state {
         case Claimed => row.token.Some? && row.availableAt.Some? && row.kind.None? && row.response.None?
         case Retryable => row.token.None? && row.availableAt.Some? && row.kind.None? && row.response.None?
         case Terminal => row.token.None? && row.availableAt.None? && row.kind.Some?
       }
  }

  // ---- The transactions ----

  /** The end of a lease or delay of whole seconds; a sub-second or unstorable one is invalid. */
  function Expiry(now: nat, durationNanos: nat): Option<nat> {
    var seconds := durationNanos / NANOS_PER_SECOND;
    if seconds == 0 || seconds > I64_MAX || now + seconds > I64_MAX then None else Some(now + seconds)
  }

  function Reclaim(row: EventRow, token: Token, expires: nat, now: nat): EventRow {
    row.(state := Claimed, token := Some(token), availableAt := Some(expires), updatedAt := now)
  }

  function TerminalFromRow(event: EventId, row: EventRow): Result<TerminalEvent, LedgerError> {
    if row.availableAt.Some? || row.kind.None? then Err(CorruptData)
    else if row.response.Some? && |row.response.value| > MAX_RESPONSE_EVENT_BYTES then Err(CorruptData)
    else Ok(TerminalEvent(event, row.kind.value, row.response, row.requestMethod, row.updatedAt))
  }

  function Claim(events: map<EventId, EventRow>, event: EventId, connection: ConnectionId, revision: nat,
                 now: nat, durationNanos: nat, draw: Option<Token>)
    : (map<EventId, EventRow>, Result<ClaimOutcome, LedgerError>)
  {
    if !Fits(now) || !Fits(revision) then (events, Err(ValueOutOfRange))
    else if Expiry(now, durationNanos).None? then (events, Err(InvalidLease))
    else
      var expires := Expiry(now, durationNanos).value;
      if event !in events then
        if draw.None? then (events, Err(RandomnessUnavailable))
        else
          (events[event := EventRow(connection, revision, Claimed, draw, Some(expires), now, None, None, None, false)],
           Ok(Acquired(EventLease(event, draw.value, false, false))))
      else
        var row := events[event];
        if row.connection != connection || row.revision != revision then (events, Err(ClaimMetadataMismatch))
        else if row.state.Terminal? then
          match TerminalFromRow(event, row)
          case Err(error) => (events, Err(error))
          case Ok(terminal) => (events, Ok(AlreadyTerminal(terminal)))
        else if row.availableAt.None? then (events, Err(CorruptData))
        else if row.availableAt.value > now then (events, Ok(InProgress(row.availableAt.value - now)))
        else if draw.None? then (events, Err(RandomnessUnavailable))
        else
          (events[event := Reclaim(row, draw.value, expires, now)],
           Ok(Acquired(EventLease(event, draw.value, true, row.accepted))))
  }

  /** The row is claimed under exactly this token. */
  predicate Holds(events: map<EventId, EventRow>, event: EventId, token: Token) {
    event in events && events[event].state.Claimed? && events[event].token == Some(token)
  }

  /** The condition every update of a claimed row carries. */
  predicate Owns(events: map<EventId, EventRow>, lease: EventLease, now: nat) {
    && Holds(events, lease.event, lease.token)
    && events[lease.event].availableAt.Some?
    && events[lease.event].availableAt.value > now
  }

  function AcceptFreshness(events: map<EventId, EventRow>, lease: EventLease, now: nat)
    : (map<EventId, EventRow>, Result<(), LedgerError>)
  {
    if !Fits(now) then (events, Err(ValueOutOfRange))
    else if !Owns(events, lease, now) then (events, Err(LostLease))
    else (events[lease.event := events[lease.event].(accepted := true, updatedAt := now)], Ok(()))
  }

  function RenewLease(events: map<EventId, EventRow>, lease: EventLease, now: nat, durationNanos: nat)
    : (map<EventId, EventRow>, Result<(), LedgerError>)
  {
    if !Fits(now) then (events, Err(ValueOutOfRange))
    else if Expiry(now, durationNanos).None? then (events, Err(InvalidLease))
    else if !Owns(events, lease, now) then (events, Err(LostLease))
    else
      (events[lease.event := events[lease.event].(availableAt := Expiry(now, durationNanos), updatedAt := now)], Ok(()))
  }

  function RetryLater(events: map<EventId, EventRow>, lease: EventLease, now: nat, delayNanos: nat)
    : (map<EventId, EventRow>, Result<(), LedgerError>)
  {
    if !Fits(now) then (events, Err(ValueOutOfRange))
    else if Expiry(now, delayNanos).None? then (events, Err(InvalidLease))
    else if !Owns(events, lease, now) then (events, Err(LostLease))
    else
      (events[lease.event := events[lease.event].(state := Retryable, token := None,
                                                  availableAt := Expiry(now, delayNanos), updatedAt := now)], Ok(()))
  }

  function Finish(row: EventRow, kind: TerminalKind, response: Option<string>, requestMethod: Option<NwcMethod>, now: nat): EventRow {
    row.(state := Terminal, token := None, availableAt := None, updatedAt := now,
         kind := Some(kind), response := response, requestMethod := requestMethod)
  }

  predicate TooLarge(response: Option<string>) {
    response.Some? && |response.value| > MAX_RESPONSE_EVENT_BYTES
  }

  function CompleteEvent(events: map<EventId, EventRow>, lease: EventLease, kind: TerminalKind,
                         response: Option<string>, now: nat): (map<EventId, EventRow>, Result<(), LedgerError>)
  {
    if TooLarge(response) then (events, Err(ResponseTooLarge))
    else if !Fits(now) then (events, Err(ValueOutOfRange))
    else if !Owns(events, lease, now) then (events, Err(LostLease))
    else (events[lease.event := Finish(events[lease.event], kind, response, None, now)], Ok(()))
  }

  predicate IsActive(authorities: map<ConnectionId, Authority>, connection: ConnectionId, revision: nat) {
    connection in authorities && authorities[connection] == Authority(revision, true)
  }

  predicate OwnsMatching(events: map<EventId, EventRow>, lease: EventLease, connection: ConnectionId, revision: nat, now: nat) {
    && Owns(events, lease, now)
    && events[lease.event].connection == connection
    && events[lease.event].revision == revision
  }

  /** Completion and the authorization check commit together. */
  function CompleteForActive(events: map<EventId, EventRow>, authorities: map<ConnectionId, Authority>, lease: EventLease,
                             connection: ConnectionId, revision: nat, response: string, requestMethod: Option<NwcMethod>, now: nat)
    : (map<EventId, EventRow>, Result<(), LedgerError>)
  {
    if |response| > MAX_RESPONSE_EVENT_BYTES then (events, Err(ResponseTooLarge))
    else if !Fits(now) || !Fits(revision) then (events, Err(ValueOutOfRange))
    else if OwnsMatching(events, lease, connection, revision, now) && IsActive(authorities, connection, revision)
    then (events[lease.event := Finish(events[lease.event], Completed, Some(response), requestMethod, now)], Ok(()))
    else if OwnsMatching(events, lease, connection, revision, now) then (events, Err(ConnectionUnavailable))
    else (events, Err(LostLease))
  }

  // ---- Pruning ----

  predicate Prunable(events: map<EventId, EventRow>, event: EventId, cutoff: nat) {
    event in events && events[event].state.Terminal? && events[event].updatedAt < cutoff
  }

  /** A batch the retention query may delete: terminal, before the cutoff, oldest first, at most `maximum`. */
  predicate PruneBatch(events: map<EventId, EventRow>, cutoff: nat, maximum: nat, batch: set<EventId>) {
    && |batch| <= maximum
    && (forall e <- batch :: Prunable(events, e, cutoff))
    && (|batch| < maximum ==> forall e <- events :: Prunable(events, e, cutoff) ==> e in batch)
    && (forall e <- batch, d <- events :: Prunable(events, d, cutoff) && d !in batch ==>
          events[e].updatedAt <= events[d].updatedAt)
  }

  // ---- The shared table as a state machine ----

  /** `drawn` remembers every token ever drawn, so that a draw can be fresh. */
  datatype Store = Store(events: map<EventId, EventRow>, authorities: map<ConnectionId, Authority>, drawn: set<Token>)

  datatype Action =
    | ClaimRow(event: EventId, connection: ConnectionId, revision: nat, now: nat, durationNanos: nat, draw: Option<Token>)
    | Accept(lease: EventLease, now: nat)
    | Renew(lease: EventLease, now: nat, durationNanos: nat)
    | Retry(lease: EventLease, now: nat, durationNanos: nat)
    | Complete(lease: EventLease, kind: TerminalKind, response: Option<string>, now: nat)
    | CompleteActive(lease: EventLease, connection: ConnectionId, revision: nat, answer: string, requestMethod: Option<NwcMethod>, now: nat)
    | Prune(batch: set<EventId>, cutoff: nat, maximum: nat)
    | Register(connection: ConnectionId)
    | Revoke(connection: ConnectionId)

  predicate Enabled(s: Store, a: Action) {
    match a
    case ClaimRow(_, _, _, _, _, draw) => draw.Some? ==> draw.value !in s.drawn
    case Prune(batch, cutoff, maximum) => PruneBatch(s.events, cutoff, maximum, batch)
    case Register(connection) => connection !in s.authorities
    case Revoke(connection) => connection in s.authorities && s.authorities[connection].active
    case _ => true
  }

  function DrawnBy(a: Action): set<Token> {
    if a.ClaimRow? && a.draw.Some? then {a.draw.value} else {}
  }

  /** The five operations that present a lease. */
  predicate PresentsLease(a: Action) {
    a.Accept? || a.Renew? || a.Retry? || a.Complete? || a.CompleteActive?
  }

  function Present(s: Store, a: Action): (map<EventId, EventRow>, Result<(), LedgerError>)
    requires PresentsLease(a)
  {
    match a
    case Accept(lease, now) => AcceptFreshness(s.events, lease, now)
    case Renew(lease, now, duration) => RenewLease(s.events, lease, now, duration)
    case Retry(lease, now, delay) => RetryLater(s.events, lease, now, delay)
    case Complete(lease, kind, response, now) => CompleteEvent(s.events, lease, kind, response, now)
    case CompleteActive(lease, connection, revision, answer, requestMethod, now) =>
      CompleteForActive(s.events, s.authorities, lease, connection, revision, answer, requestMethod, now)
  }

  function EventsAfter(s: Store, a: Action): map<EventId, EventRow> {
    match a
    case ClaimRow(event, connection, revision, now, duration, draw) =>
      Claim(s.events, event, connection, revision, now, duration, draw).0
    case Prune(batch, _, _) => s.events - batch
    case Register(_) => s.events
    case Revoke(_) => s.events
    case _ => Present(s, a).0
  }

  function AuthoritiesAfter(s: Store, a: Action): map<ConnectionId, Authority> {
    match a
    case Register(connection) => s.authorities[connection := Authority(0, true)]
    case Revoke(connection) =>
      if connection in s.authorities
      then s.authorities[connection := Authority(s.authorities[connection].revision + 1, false)]
      else s.authorities
    case _ => s.authorities
  }

  function Apply(s: Store, a: Action): Store {
    Store(EventsAfter(s, a), AuthoritiesAfter(s, a), s.drawn + DrawnBy(a))
  }

  ghost predicate Run(s: Store, actions: seq<Action>)
    decreases |actions|
  {
    actions == [] || (Enabled(s, actions[0]) && Run(Apply(s, actions[0]), actions[1..]))
  }

  ghost function After(s: Store, actions: seq<Action>): Store
    requires Run(s, actions)
    decreases |actions|
  {
    if actions == [] then s else After(Apply(s, actions[0]), actions[1..])
  }

  // ---- The ledger object ----

  /** The ledger's methods, each one transaction on the rows it updates in place. */
  class WakeLedger {
    var events: map<EventId, EventRow>
    var authorities: map<ConnectionId, Authority>

    constructor ()
      ensures events == map[] && authorities == map[]
    {
      events, authorities := map[], map[];
    }

    method ClaimEvent(event: EventId, connection: ConnectionId, revision: nat, now: nat, durationNanos: nat, draw: Option<Token>)
      returns (r: Result<ClaimOutcome, LedgerError>)
      modifies this`events
      ensures (events, r) == Claim(old(events), event, connection, revision, now, durationNanos, draw)
    {
      if !Fits(now) || !Fits(revision) {
        return Err(ValueOutOfRange);
      }
      var seconds := durationNanos / NANOS_PER_SECOND;
      if seconds == 0 || seconds > I64_MAX || now + seconds > I64_MAX {
        return Err(InvalidLease);
      }
      var expires := now + seconds;
      if event !in events {
        if draw.None? {
          return Err(RandomnessUnavailable);
        }
        events := events[event := EventRow(connection, revision, Claimed, draw, Some(expires), now, None, None, None, false)];
        return Ok(Acquired(EventLease(event, draw.value, false, false)));
      }
      var existing := events[event];
      if existing.connection != connection || existing.revision != revision {
        return Err(ClaimMetadataMismatch);
      }
      if existing.state == Terminal {
        var terminal := TerminalFromRow(event, existing);
        return if terminal.Ok? then Ok(AlreadyTerminal(terminal.value)) else Err(terminal.error);
      }
      if existing.availableAt.None? {
        return Err(CorruptData);
      }
      if existing.availableAt.value > now {
        return Ok(InProgress(existing.availableAt.value - now));
      }
      if draw.None? {
        return Err(RandomnessUnavailable);
      }
      events := events[event := existing.(state := Claimed, token := draw, availableAt := Some(expires), updatedAt := now)];
      return Ok(Acquired(EventLease(event, draw.value, true, existing.accepted)));
    }

    /** Rows changed by the shared guard of every lease update. */
    method UpdateOwned(lease: EventLease, now: nat, row: EventRow) returns (updated: nat)
      modifies this`events
      ensures updated == if Owns(old(events), lease, now) then 1 else 0
      ensures events == if updated == 1 then old(events)[lease.event := row] else old(events)
    {
      updated := 0;
      if lease.event in events {
        var current := events[lease.event];
        if current.state == Claimed && current.token == Some(lease.token)
           && current.availableAt.Some? && current.availableAt.value > now {
          events := events[lease.event := row];
          updated := 1;
        }
      }
    }

    method AcceptEventFreshness(lease: EventLease, now: nat) returns (r: Result<(), LedgerError>)
      modifies this`events
      ensures (events, r) == AcceptFreshness(old(events), lease, now)
    {
      if !Fits(now) {
        return Err(ValueOutOfRange);
      }
      if lease.event !in events {
        return Err(LostLease);
      }
      var updated := UpdateOwned(lease, now, events[lease.event].(accepted := true, updatedAt := now));
      return if updated == 1 then Ok(()) else Err(LostLease);
    }

    method RenewLeaseRow(lease: EventLease, now: nat, durationNanos: nat) returns (r: Result<(), LedgerError>)
      modifies this`events
      ensures (events, r) == RenewLease(old(events), lease, now, durationNanos)
    {
      if !Fits(now) {
        return Err(ValueOutOfRange);
      }
      var expires := Expiry(now, durationNanos);
      if expires.None? {
        return Err(InvalidLease);
      }
      if lease.event !in events {
        return Err(LostLease);
      }
      var updated := UpdateOwned(lease, now, events[lease.event].(availableAt := expires, updatedAt := now));
      return if updated == 1 then Ok(()) else Err(LostLease);
    }

    method RetryEventLater(lease: EventLease, now: nat, delayNanos: nat) returns (r: Result<(), LedgerError>)
      modifies this`events
      ensures (events, r) == RetryLater(old(events), lease, now, delayNanos)
    {
      if !Fits(now) {
        return Err(ValueOutOfRange);
      }
      var availableAt := Expiry(now, delayNanos);
      if availableAt.None? {
        return Err(InvalidLease);
      }
      if lease.event !in events {
        return Err(LostLease);
      }
      var row := events[lease.event];
      var updated := UpdateOwned(lease, now, row.(state := Retryable, token := None, availableAt := availableAt, updatedAt := now));
      return if updated == 1 then Ok(()) else Err(LostLease);
    }

    method CompleteClaim(lease: EventLease, kind: TerminalKind, response: Option<string>, now: nat)
      returns (r: Result<(), LedgerError>)
      modifies this`events
      ensures (events, r) == CompleteEvent(old(events), lease, kind, response, now)
    {
      if response.Some? && |response.value| > MAX_RESPONSE_EVENT_BYTES {
        return Err(ResponseTooLarge);
      }
      if !Fits(now) {
        return Err(ValueOutOfRange);
      }
      if lease.event !in events {
        return Err(LostLease);
      }
      var updated := UpdateOwned(lease, now, Finish(events[lease.event], kind, response, None, now));
      return if updated == 1 then Ok(()) else Err(LostLease);
    }

    method CompleteEventForActiveConnection(lease: EventLease, connection: ConnectionId, revision: nat,
                                            response: string, requestMethod: Option<NwcMethod>, now: nat)
      returns (r: Result<(), LedgerError>)
      modifies this`events
      ensures (events, r) == CompleteForActive(old(events), authorities, lease, connection, revision, response, requestMethod, now)
    {
      if |response| > MAX_RESPONSE_EVENT_BYTES {
        return Err(ResponseTooLarge);
      }
      if !Fits(now) || !Fits(revision) {
        return Err(ValueOutOfRange);
      }
      var matches := lease.event in events && events[lease.event].connection == connection
                     && events[lease.event].revision == revision;
      var active := connection in authorities && authorities[connection].revision == revision && authorities[connection].active;
      if matches && active {
        var updated := UpdateOwned(lease, now, Finish(events[lease.event], Completed, Some(response), requestMethod, now));
        if updated == 1 {
          return Ok(());
        }
      }
      var stillOwned := matches && Owns(events, lease, now);
      return if stillOwned then Err(ConnectionUnavailable) else Err(LostLease);
    }

    /** The first row of the retention order. */
    method SelectOldest(candidates: set<EventId>) returns (oldest: EventId)
      requires candidates != {} && candidates <= events.Keys
      ensures oldest in candidates
      ensures forall e <- candidates :: events[oldest].updatedAt <= events[e].updatedAt
    {
      oldest :| oldest in candidates;
      var unseen := candidates - {oldest};
      while unseen != {}
        invariant unseen <= candidates && oldest in candidates
        invariant forall e <- candidates :: e in unseen || events[oldest].updatedAt <= events[e].updatedAt
        decreases unseen
      {
        var next :| next in unseen;
        if events[next].updatedAt < events[oldest].updatedAt {
          oldest := next;
        }
        unseen := unseen - {next};
      }
    }

    /** The rows the retention query names. */
    method SelectBatch(before: nat, maximumRows: nat) returns (batch: set<EventId>)
      ensures PruneBatch(events, before, maximumRows, batch)
    {
      batch := {};
      var rest := set e | e in events && Prunable(events, e, before);
      while |batch| < maximumRows && rest != {}
        invariant rest <= events.Keys && batch <= events.Keys && batch !! rest && |batch| <= maximumRows
        invariant forall e <- batch + rest :: Prunable(events, e, before)
        invariant forall e <- events :: Prunable(events, e, before) ==> e in batch || e in rest
        invariant forall e <- batch, d <- rest :: events[e].updatedAt <= events[d].updatedAt
        decreases rest
      {
        var oldest := SelectOldest(rest);
        batch, rest := batch + {oldest}, rest - {oldest};
      }
    }

    /** Deletes a bounded batch, oldest first; the query fixes the batch up to equal times. */
    method PruneTerminal(before: nat, maximumRows: nat) returns (r: Result<nat, LedgerError>)
      modifies this`events
      ensures r.Err? <==> maximumRows == 0 || maximumRows > 1_000 || before > I64_MAX
      ensures r.Err? ==> events == old(events)
      ensures r.Ok? ==> events.Keys <= old(events).Keys && events == old(events) - (old(events).Keys - events.Keys)
                        && r.value == |old(events).Keys - events.Keys|
                        && PruneBatch(old(events), before, maximumRows, old(events).Keys - events.Keys)
    {
      if maximumRows == 0 || maximumRows > MAX_PRUNE_BATCH {
        return Err(InvalidPruneBatch);
      }
      if !Fits(before) {
        return Err(ValueOutOfRange);
      }
      ghost var was := events;
      var batch := SelectBatch(before, maximumRows);
      events := events - batch;
      assert was.Keys - events.Keys == batch;
      return Ok(|batch|);
    }
  }
}
