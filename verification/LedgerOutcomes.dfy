/**
 What each ledger transaction does, in the columns of its rows, and how long a claim lasts when its process
 is never heard of again.
 */
module LedgerOutcomes {
  import opened Types
  import opened Ledger
  import opened LedgerSafety

  /** The columns of the live claim a lease stands for. */
  ghost predicate LiveClaim(events: map<EventId, EventRow>, lease: EventLease, now: nat) {
    && lease.event in events
    && var row := events[lease.event];
    && row.state == Claimed && row.token == Some(lease.token)
    && row.availableAt.Some? && now < row.availableAt.value
  }

  /** A lease or delay in whole seconds that can be stored. */
  ghost predicate StorableWait(now: nat, durationNanos: nat) {
    1_000_000_000 <= durationNanos && now + durationNanos / 1_000_000_000 <= I64_MAX
  }

  // ---- Claims ----

  /** An acquired claim lasts for its whole seconds and no longer; a resumed row keeps every other column. */
  lemma AcquiredRow(events: map<EventId, EventRow>, event: EventId, connection: ConnectionId, revision: nat,
                    now: nat, durationNanos: nat, draw: Option<Token>)
    requires Claim(events, event, connection, revision, now, durationNanos, draw).1.Ok?
    requires Claim(events, event, connection, revision, now, durationNanos, draw).1.value.Acquired?
    ensures draw.Some?
    ensures var (next, r) := Claim(events, event, connection, revision, now, durationNanos, draw);
            var row := EventRow(connection, revision, Claimed, draw, Some(now + durationNanos / 1_000_000_000), now,
                                if event in events then events[event].kind else None,
                                if event in events then events[event].response else None,
                                if event in events then events[event].requestMethod else None,
                                event in events && events[event].accepted);
            && next == events[event := row]
            && r.value.lease == EventLease(event, draw.value, event in events, row.accepted)
  {
  }

  /** The other answers change nothing; they name the remaining wait, or the stored terminal columns. */
  lemma UnacquiredClaim(events: map<EventId, EventRow>, event: EventId, connection: ConnectionId, revision: nat,
                        now: nat, durationNanos: nat, draw: Option<Token>)
    requires var r := Claim(events, event, connection, revision, now, durationNanos, draw).1; r.Ok? ==> !r.value.Acquired?
    ensures var (next, r) := Claim(events, event, connection, revision, now, durationNanos, draw);
            && next == events
            && (r.Ok? && r.value.InProgress? ==>
                  event in events && events[event].availableAt == Some(now + r.value.retryAfterSeconds) && r.value.retryAfterSeconds > 0)
            && (r.Ok? && r.value.AlreadyTerminal? ==>
                  && event in events && events[event].state == Terminal
                  && r.value.terminal.event == event && Some(r.value.terminal.kind) == events[event].kind
                  && r.value.terminal.response == events[event].response
                  && r.value.terminal.requestMethod == events[event].requestMethod
                  && r.value.terminal.completedAt == events[event].updatedAt)
  {
  }

  lemma UnstorableClaim(events: map<EventId, EventRow>, event: EventId, connection: ConnectionId, revision: nat,
                        now: nat, durationNanos: nat, draw: Option<Token>)
    ensures var r := Claim(events, event, connection, revision, now, durationNanos, draw).1;
            && (r == Err(ValueOutOfRange) <==> now > I64_MAX || revision > I64_MAX)
            && (r == Err(InvalidLease) <==> now <= I64_MAX && revision <= I64_MAX && !StorableWait(now, durationNanos))
  {
  }

  // ---- Lease operations ----

  /** Acceptance sets the flag of the live claim. */
  lemma AcceptanceExactly(events: map<EventId, EventRow>, lease: EventLease, now: nat)
    ensures var (next, r) := AcceptFreshness(events, lease, now);
            && (r.Ok? <==> now <= I64_MAX && LiveClaim(events, lease, now))
            && (r.Ok? ==> next == events[lease.event := events[lease.event].(accepted := true, updatedAt := now)])
            && (r.Err? ==> next == events && r.error == if now <= I64_MAX then LostLease else ValueOutOfRange)
  {
  }

  /** Renewal moves the end of the live claim to the whole seconds from now. */
  lemma RenewalExactly(events: map<EventId, EventRow>, lease: EventLease, now: nat, durationNanos: nat)
    ensures var (next, r) := RenewLease(events, lease, now, durationNanos);
            && (r.Ok? <==> now <= I64_MAX && StorableWait(now, durationNanos) && LiveClaim(events, lease, now))
            && (r.Ok? ==> next == events[lease.event := events[lease.event].(availableAt := Some(now + durationNanos / 1_000_000_000),
                                                                             updatedAt := now)])
            && (r.Err? ==> next == events)
  {
  }

  /** A release makes the event claimable after the whole seconds of the delay, with its flag kept. */
  lemma ReleaseExactly(events: map<EventId, EventRow>, lease: EventLease, now: nat, delayNanos: nat)
    ensures var (next, r) := RetryLater(events, lease, now, delayNanos);
            && (r.Ok? <==> now <= I64_MAX && StorableWait(now, delayNanos) && LiveClaim(events, lease, now))
            && (r.Ok? ==> next == events[lease.event := events[lease.event].(state := Retryable, token := None,
                                                                             availableAt := Some(now + delayNanos / 1_000_000_000),
                                                                             updatedAt := now)])
            && (r.Err? ==> next == events)
  {
  }

  /** Completion writes kind, response, method and time of the live claim. */
  lemma CompletionExactly(events: map<EventId, EventRow>, lease: EventLease, kind: TerminalKind, response: Option<string>, now: nat)
    ensures var (next, r) := CompleteEvent(events, lease, kind, response, now);
            && (r.Ok? <==> now <= I64_MAX && LiveClaim(events, lease, now) && (response.Some? ==> |response.value| <= 131_072))
            && (r.Ok? ==> next == events[lease.event := events[lease.event].(state := Terminal, token := None, availableAt := None,
                                                                             updatedAt := now, kind := Some(kind), response := response,
                                                                             requestMethod := None)])
            && (r.Err? ==> next == events)
  {
  }

  /**
   Authorized completion needs the live claim of this connection revision and the active authorization row
   of exactly this revision; a live claim without it learns that the connection is unavailable.
   */
  lemma AuthorizedCompletionExactly(events: map<EventId, EventRow>, authorities: map<ConnectionId, Authority>, lease: EventLease,
                                    connection: ConnectionId, revision: nat, response: string, requestMethod: Option<NwcMethod>, now: nat)
    requires |response| <= 131_072 && now <= I64_MAX && revision <= I64_MAX
    ensures var (next, r) := CompleteForActive(events, authorities, lease, connection, revision, response, requestMethod, now);
            var own := LiveClaim(events, lease, now)
                       && events[lease.event].connection == connection && events[lease.event].revision == revision;
            var live := connection in authorities && authorities[connection].revision == revision && authorities[connection].active;
            && r == (if own && live then Ok(()) else if own then Err(ConnectionUnavailable) else Err(LostLease))
            && (r.Ok? ==> next == events[lease.event := events[lease.event].(state := Terminal, token := None, availableAt := None,
                                                                             updatedAt := now, kind := Some(Completed),
                                                                             response := Some(response), requestMethod := requestMethod)])
            && (r.Err? ==> next == events)
  {
  }

  lemma OversizedResponse(events: map<EventId, EventRow>, authorities: map<ConnectionId, Authority>, lease: EventLease,
                          connection: ConnectionId, revision: nat, response: string, requestMethod: Option<NwcMethod>, now: nat)
    requires |response| > 131_072
    ensures CompleteForActive(events, authorities, lease, connection, revision, response, requestMethod, now)
            == (events, Err(ResponseTooLarge))
    ensures CompleteEvent(events, lease, Completed, Some(response), now) == (events, Err(ResponseTooLarge))
  {
  }

  // ---- Retention ----

  /** A batch to delete: terminal rows last written before the cutoff, none older left, full or exhaustive. */
  lemma PruneBatchExactly(events: map<EventId, EventRow>, cutoff: nat, maximum: nat, batch: set<EventId>)
    requires batch <= events.Keys
    ensures PruneBatch(events, cutoff, maximum, batch) <==>
              && |batch| <= maximum
              && (forall e <- batch :: events[e].state == Terminal && events[e].updatedAt < cutoff)
              && (forall d <- events :: d !in batch && events[d].state == Terminal && events[d].updatedAt < cutoff ==>
                    |batch| == maximum && forall e <- batch :: events[e].updatedAt <= events[d].updatedAt)
  {
    if PruneBatch(events, cutoff, maximum, batch) {
      forall d | d in events && d !in batch && events[d].state == Terminal && events[d].updatedAt < cutoff
        ensures |batch| == maximum && forall e <- batch :: events[e].updatedAt <= events[d].updatedAt
      {
        assert Prunable(events, d, cutoff);
      }
    } else if && |batch| <= maximum
              && (forall e <- batch :: events[e].state == Terminal && events[e].updatedAt < cutoff)
              && (forall d <- events :: d !in batch && events[d].state == Terminal && events[d].updatedAt < cutoff ==>
                    |batch| == maximum && forall e <- batch :: events[e].updatedAt <= events[d].updatedAt) {
      assert forall d <- events :: Prunable(events, d, cutoff) ==> events[d].state == Terminal && events[d].updatedAt < cutoff;
      assert PruneBatch(events, cutoff, maximum, batch);
    }
  }

  // ---- The end of an abandoned claim ----

  /** The transaction neither presents the token for the event nor acquires the event. */
  ghost predicate Spares(s: Store, a: Action, event: EventId, token: Token) {
    && (PresentsLease(a) && a.lease.event == event && a.lease.token == token ==> Present(s, a).1.Err?)
    && (a.ClaimRow? && a.event == event ==>
          var r := Claim(s.events, a.event, a.connection, a.revision, a.now, a.durationNanos, a.draw).1; !(r.Ok? && r.value.Acquired?))
  }

  /** No operation of the token and no other claim of the event takes effect. */
  ghost predicate Abandoned(s: Store, actions: seq<Action>, event: EventId, token: Token)
    requires Run(s, actions)
    decreases |actions|
  {
    actions != [] ==> Spares(s, actions[0], event, token) && Abandoned(Apply(s, actions[0]), actions[1..], event, token)
  }

  lemma ClaimedRowIsSpared(s: Store, a: Action, event: EventId, token: Token)
    requires Enabled(s, a) && Spares(s, a, event, token)
    requires event in s.events && s.events[event].state == Claimed && s.events[event].token == Some(token)
    ensures event in Apply(s, a).events && Apply(s, a).events[event] == s.events[event]
  {
  }

  lemma {:induction false} ClaimedRowStays(s: Store, actions: seq<Action>, event: EventId, token: Token)
    requires Run(s, actions) && Abandoned(s, actions, event, token)
    requires event in s.events && s.events[event].state == Claimed && s.events[event].token == Some(token)
    ensures event in After(s, actions).events && After(s, actions).events[event] == s.events[event]
    decreases |actions|
  {
    if actions != [] {
      ClaimedRowIsSpared(s, actions[0], event, token);
      ClaimedRowStays(Apply(s, actions[0]), actions[1..], event, token);
    }
  }

  /**
   A claim whose process is never heard of again ends when its whole seconds have passed: whatever happens
   meanwhile, a claim of the same connection revision is told the remaining seconds before that time, and
   from that time on it takes the event over with its freshness flag.
   */
  lemma AbandonedClaimEnds(s: Store, claim: Action, later: seq<Action>, again: Action)
    requires Inv(s) && claim.ClaimRow? && claim.draw.Some? && Enabled(s, claim)
    requires var r := Claim(s.events, claim.event, claim.connection, claim.revision, claim.now, claim.durationNanos, claim.draw).1;
             r.Ok? && r.value.Acquired?
    requires Run(Apply(s, claim), later) && Abandoned(Apply(s, claim), later, claim.event, claim.draw.value)
    requires again.ClaimRow? && again.event == claim.event && again.connection == claim.connection && again.revision == claim.revision
    requires again.draw.Some? && again.now <= I64_MAX && StorableWait(again.now, again.durationNanos)
    ensures var end, w := claim.now + claim.durationNanos / 1_000_000_000, After(Apply(s, claim), later);
            var accepted := claim.event in s.events && s.events[claim.event].accepted;
            Claim(w.events, again.event, again.connection, again.revision, again.now, again.durationNanos, again.draw).1
            == Ok(if again.now < end then InProgress(end - again.now)
                  else Acquired(EventLease(claim.event, again.draw.value, true, accepted)))
  {
    AcquiredRow(s.events, claim.event, claim.connection, claim.revision, claim.now, claim.durationNanos, claim.draw);
    UnstorableClaim(s.events, claim.event, claim.connection, claim.revision, claim.now, claim.durationNanos, claim.draw);
    ClaimedRowStays(Apply(s, claim), later, claim.event, claim.draw.value);
  }
}
