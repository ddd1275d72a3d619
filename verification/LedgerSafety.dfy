/** What every interleaving of ledger transactions keeps, whatever the clocks say. */
module LedgerSafety {
  import opened Types
  import opened Ledger

  // ---- Table invariant ----

  /** Rows meet the table checks, and every current token was drawn for one row only. */
  ghost predicate Inv(s: Store) {
    && (forall e <- s.events :: RowCheck(s.events[e]))
    && (forall e <- s.events :: s.events[e].token.Some? ==> s.events[e].token.value in s.drawn)
    && (forall d <- s.events, e <- s.events :: s.events[d].token.Some? && s.events[d].token == s.events[e].token ==> d == e)
  }

  /** One transaction changes at most one surviving row, and only moves it forward. */
  ghost predicate RowForward(before: EventRow, after: EventRow) {
    && after.connection == before.connection
    && after.revision == before.revision
    && (before.accepted ==> after.accepted)
    && (before.state.Terminal? ==> after == before)
  }

  /** The event whose row a transaction may write. */
  function Target(a: Action): Option<EventId> {
    match a
    case ClaimRow(event, _, _, _, _, _) => Some(event)
    case Prune(_, _, _) => None
    case Register(_) => None
    case Revoke(_) => None
    case _ => Some(a.lease.event)
  }

  /** The row a transaction writes is checked and forward, with a fresh token or its old one. */
  ghost predicate WritesSoundly(s: Store, a: Action, e: EventId, row: EventRow) {
    && RowCheck(row)
    && (row.token.Some? ==>
          (a.ClaimRow? && row.token == a.draw) || (e in s.events && s.events[e].token == row.token))
    && (e in s.events ==> RowForward(s.events[e], row))
  }

  lemma ClaimWrites(s: Store, a: Action)
    requires Inv(s) && a.ClaimRow?
    ensures EventsAfter(s, a) == s.events
            || (exists row :: EventsAfter(s, a) == s.events[a.event := row] && WritesSoundly(s, a, a.event, row))
  {
    var events := EventsAfter(s, a);
    if events != s.events {
      assert events == s.events[a.event := events[a.event]];
      assert WritesSoundly(s, a, a.event, events[a.event]);
    }
  }

  lemma PresentWrites(s: Store, a: Action)
    requires Inv(s) && PresentsLease(a)
    ensures EventsAfter(s, a) == s.events
            || (a.lease.event in s.events
                && exists row :: EventsAfter(s, a) == s.events[a.lease.event := row] && WritesSoundly(s, a, a.lease.event, row))
  {
    var e, events := a.lease.event, EventsAfter(s, a);
    if events != s.events {
      assert events == s.events[e := events[e]];
      assert WritesSoundly(s, a, e, events[e]);
    }
  }

  lemma WriteKeepsInv(s: Store, a: Action, e: EventId, row: EventRow)
    requires Inv(s) && Enabled(s, a) && WritesSoundly(s, a, e, row)
    requires EventsAfter(s, a) == s.events[e := row]
    ensures Inv(Apply(s, a))
  {
  }

  lemma StepKeepsInv(s: Store, a: Action)
    requires Inv(s) && Enabled(s, a)
    ensures Inv(Apply(s, a))
  {
    if a.ClaimRow? {
      ClaimWrites(s, a);
    } else if PresentsLease(a) {
      PresentWrites(s, a);
    }
    if Target(a).Some? && EventsAfter(s, a) != s.events {
      var row :| EventsAfter(s, a) == s.events[Target(a).value := row] && WritesSoundly(s, a, Target(a).value, row);
      WriteKeepsInv(s, a, Target(a).value, row);
    }
  }

  /** The checks hold and no token serves two rows, in every reachable state. */
  lemma {:induction false} RunKeepsInv(s: Store, actions: seq<Action>)
    requires Inv(s) && Run(s, actions)
    ensures Inv(After(s, actions))
    decreases |actions|
  {
    if actions != [] {
      StepKeepsInv(s, actions[0]);
      RunKeepsInv(Apply(s, actions[0]), actions[1..]);
    }
  }

  // ---- Claims ----

  /** A reading ledger call never meets a row it would call corrupt. */
  lemma ClaimNeverCorrupt(s: Store, a: Action)
    requires Inv(s) && a.ClaimRow?
    ensures Claim(s.events, a.event, a.connection, a.revision, a.now, a.durationNanos, a.draw).1 != Err(CorruptData)
  {
  }

  /** The outcome of a claim in terms of the row and the caller's clock. */
  lemma ClaimAcquiresExactly(s: Store, a: Action)
    requires Inv(s) && a.ClaimRow? && Fits(a.now) && Fits(a.revision) && Expiry(a.now, a.durationNanos).Some?
    ensures var r := Claim(s.events, a.event, a.connection, a.revision, a.now, a.durationNanos, a.draw).1;
            var there := a.event in s.events;
            var matches := there && s.events[a.event].connection == a.connection && s.events[a.event].revision == a.revision;
            var waiting := matches && !s.events[a.event].state.Terminal? && s.events[a.event].availableAt.value > a.now;
            && (r.Ok? && r.value.Acquired? <==>
                  a.draw.Some? && (!there || (matches && !s.events[a.event].state.Terminal? && !waiting)))
            && (r.Ok? && r.value.InProgress? <==> waiting)
            && (waiting ==> r.value.retryAfterSeconds > 0
                            && a.now + r.value.retryAfterSeconds == s.events[a.event].availableAt.value)
            && (r.Ok? && r.value.AlreadyTerminal? <==> matches && s.events[a.event].state.Terminal?)
            && (r == Err(ClaimMetadataMismatch) <==> there && !matches)
  {
  }

  // ---- Lease fencing ----

  /** The argument checks a lease operation makes before it looks at the table. */
  predicate WellFormed(a: Action)
    requires PresentsLease(a)
  {
    match a
    case Accept(_, now) => Fits(now)
    case Renew(_, now, duration) => Fits(now) && Expiry(now, duration).Some?
    case Retry(_, now, delay) => Fits(now) && Expiry(now, delay).Some?
    case Complete(_, _, response, now) => Fits(now) && !TooLarge(response)
    case CompleteActive(_, _, revision, answer, _, now) =>
      Fits(now) && Fits(revision) && |answer| <= MAX_RESPONSE_EVENT_BYTES
  }

  /** A well-formed operation succeeds exactly for the live owner, and completion also needs the authorization. */
  lemma AcceptedExactlyForOwner(s: Store, a: Action)
    requires PresentsLease(a) && WellFormed(a)
    ensures Present(s, a).1.Ok? <==>
              Owns(s.events, a.lease, a.now)
              && (a.CompleteActive? ==>
                    OwnsMatching(s.events, a.lease, a.connection, a.revision, a.now)
                    && IsActive(s.authorities, a.connection, a.revision))
    ensures Present(s, a).1.Err? ==> Present(s, a).0 == s.events
  {
  }

  /** In no state do two tokens both work on one row. */
  lemma OneWorkingToken(s: Store, a: Action, b: Action)
    requires PresentsLease(a) && PresentsLease(b) && a.lease.event == b.lease.event
    requires Present(s, a).1.Ok? && Present(s, b).1.Ok?
    ensures a.lease.token == b.lease.token
  {
  }

  /** The transactions after which a held token no longer works. */
  ghost predicate EndsClaim(s: Store, a: Action, e: EventId) {
    match a
    case ClaimRow(event, connection, revision, now, duration, draw) =>
      var r := Claim(s.events, event, connection, revision, now, duration, draw).1;
      event == e && r.Ok? && r.value.Acquired?
    case Retry(lease, _, _) => lease.event == e && Present(s, a).1.Ok?
    case Complete(lease, _, _, _) => lease.event == e && Present(s, a).1.Ok?
    case CompleteActive(lease, _, _, _, _, _) => lease.event == e && Present(s, a).1.Ok?
    case _ => false
  }

  /** A held claim ends exactly by replacement, release or completion; pruning never ends one. */
  lemma ClaimEndsExactly(s: Store, a: Action, e: EventId, token: Token)
    requires Inv(s) && Enabled(s, a) && Holds(s.events, e, token)
    ensures Holds(EventsAfter(s, a), e, token) <==> !EndsClaim(s, a, e)
  {
    if a.ClaimRow? && EndsClaim(s, a, e) {
      assert a.draw.Some? && a.draw.value != token;
    }
  }

  /** A drawn token the row is not claimed under. */
  ghost predicate Stale(s: Store, e: EventId, token: Token) {
    token in s.drawn && !Holds(s.events, e, token)
  }

  lemma StaleStaysStale(s: Store, a: Action, e: EventId, token: Token)
    requires Stale(s, e, token) && Enabled(s, a)
    ensures Stale(Apply(s, a), e, token)
  {
    if a.ClaimRow? && a.event == e && a.draw.Some? {
      assert a.draw.value != token;
    }
  }

  lemma {:induction false} StaleForever(s: Store, actions: seq<Action>, e: EventId, token: Token)
    requires Stale(s, e, token) && Run(s, actions)
    ensures Stale(After(s, actions), e, token)
    decreases |actions|
  {
    if actions != [] {
      StaleStaysStale(s, actions[0], e, token);
      StaleForever(Apply(s, actions[0]), actions[1..], e, token);
    }
  }

  /**
   Once a claim is replaced, released or completed, every operation with its lease fails in every
   later state, with `LostLease` when its arguments are well formed, and changes nothing.
   */
  lemma LostLeaseStaysLost(s: Store, ending: Action, later: seq<Action>, a: Action)
    requires Inv(s) && PresentsLease(a) && Holds(s.events, a.lease.event, a.lease.token)
    requires Enabled(s, ending) && EndsClaim(s, ending, a.lease.event)
    requires Run(Apply(s, ending), later)
    ensures var w := After(Apply(s, ending), later);
            && EventsAfter(w, a) == w.events
            && Present(w, a).1.Err?
            && (WellFormed(a) ==> Present(w, a).1 == Err(LostLease))
  {
    ClaimEndsExactly(s, ending, a.lease.event, a.lease.token);
    StaleForever(Apply(s, ending), later, a.lease.event, a.lease.token);
    StaleTokenFails(After(Apply(s, ending), later), a);
  }

  lemma StaleTokenFails(s: Store, a: Action)
    requires PresentsLease(a) && !Holds(s.events, a.lease.event, a.lease.token)
    ensures EventsAfter(s, a) == s.events && Present(s, a).1.Err?
    ensures WellFormed(a) ==> Present(s, a).1 == Err(LostLease)
  {
  }

  // ---- Terminal rows and the freshness flag ----

  ghost predicate NeverPruned(actions: seq<Action>, e: EventId) {
    forall a <- actions :: a.Prune? ==> e !in a.batch
  }

  lemma StepMovesForward(s: Store, a: Action, e: EventId)
    requires Inv(s) && Enabled(s, a) && e in s.events && (a.Prune? ==> e !in a.batch)
    ensures e in Apply(s, a).events && RowForward(s.events[e], Apply(s, a).events[e])
  {
    if a.ClaimRow? {
      ClaimWrites(s, a);
    } else if PresentsLease(a) {
      PresentWrites(s, a);
    }
  }

  /**
   Until its row is pruned, an event keeps its connection and revision, its freshness flag never
   goes back, and a terminal row keeps every column.
   */
  lemma {:induction false} RowsMoveForward(s: Store, actions: seq<Action>, e: EventId)
    requires Inv(s) && Run(s, actions) && e in s.events && NeverPruned(actions, e)
    ensures e in After(s, actions).events && RowForward(s.events[e], After(s, actions).events[e])
    decreases |actions|
  {
    if actions != [] {
      StepMovesForward(s, actions[0], e);
      StepKeepsInv(s, actions[0]);
      assert forall a <- actions[1..] :: a in actions;
      RowsMoveForward(Apply(s, actions[0]), actions[1..], e);
    }
  }

  // ---- The retry delay ----

  /** No claim of the event is tried before the given time. */
  ghost predicate NotClaimedBefore(actions: seq<Action>, e: EventId, time: nat) {
    forall a <- actions :: a.ClaimRow? && a.event == e ==> a.now < time
  }

  lemma WaitingRowIsUntouched(s: Store, a: Action, e: EventId, time: nat)
    requires Inv(s) && Enabled(s, a) && e in s.events && s.events[e].state.Retryable? && s.events[e].availableAt == Some(time)
    requires a.ClaimRow? && a.event == e ==> a.now < time
    ensures e in EventsAfter(s, a) && EventsAfter(s, a)[e] == s.events[e]
  {
  }

  lemma {:induction false} RetryableRowWaits(s: Store, actions: seq<Action>, e: EventId, time: nat)
    requires Inv(s) && Run(s, actions) && e in s.events && s.events[e].state.Retryable? && s.events[e].availableAt == Some(time)
    requires NotClaimedBefore(actions, e, time)
    ensures e in After(s, actions).events && After(s, actions).events[e] == s.events[e]
    decreases |actions|
  {
    if actions != [] {
      assert actions[0] in actions;
      WaitingRowIsUntouched(s, actions[0], e, time);
      StepKeepsInv(s, actions[0]);
      assert forall a <- actions[1..] :: a in actions;
      RetryableRowWaits(Apply(s, actions[0]), actions[1..], e, time);
    }
  }

  /**
   A released event is handed to no process until its whole delay has passed on the claimer's clock:
   whatever happens meanwhile its row is exactly the released one, earlier claims are told how long to
   wait, and from then on a claim of the same connection revision takes it over with its freshness flag.
   */
  lemma ReleasedEventWaits(s: Store, release: Action, later: seq<Action>, claim: Action)
    requires Inv(s) && release.Retry? && Present(s, release).1.Ok? && Run(Apply(s, release), later)
    requires claim.ClaimRow? && claim.event == release.lease.event && claim.draw.Some?
    requires Fits(claim.now) && Fits(claim.revision) && Expiry(claim.now, claim.durationNanos).Some?
    requires claim.event in s.events && claim.connection == s.events[claim.event].connection
             && claim.revision == s.events[claim.event].revision
    requires NotClaimedBefore(later, claim.event, release.now + release.durationNanos / NANOS_PER_SECOND)
    ensures var time, w := release.now + release.durationNanos / NANOS_PER_SECOND, After(Apply(s, release), later);
            var r := Claim(w.events, claim.event, claim.connection, claim.revision, claim.now, claim.durationNanos, claim.draw).1;
            r == Ok(if claim.now < time then InProgress(time - claim.now)
                    else Acquired(EventLease(claim.event, claim.draw.value, true, s.events[claim.event].accepted)))
  {
    var time := release.now + release.durationNanos / NANOS_PER_SECOND;
    StepKeepsInv(s, release);
    RetryableRowWaits(Apply(s, release), later, claim.event, time);
  }

  // ---- Revocation ----

  /** The exact authorization is gone and cannot come back. */
  ghost predicate Fenced(s: Store, connection: ConnectionId, revision: nat) {
    && connection in s.authorities
    && (s.authorities[connection].revision > revision
        || (s.authorities[connection].revision == revision && !s.authorities[connection].active))
  }

  lemma {:induction false} FenceHolds(s: Store, actions: seq<Action>, connection: ConnectionId, revision: nat)
    requires Fenced(s, connection, revision) && Run(s, actions)
    ensures Fenced(After(s, actions), connection, revision)
    decreases |actions|
  {
    if actions != [] {
      FenceHolds(Apply(s, actions[0]), actions[1..], connection, revision);
    }
  }

  /**
   After a revocation committed, in every later state of every interleaving, completion for that id
   and revision changes nothing. A row of that id and revision is not completed under any other
   authorization either. The caller learns `ConnectionUnavailable` exactly when it still owns the
   live matching lease, and `LostLease` otherwise.
   */
  lemma RevocationFencesCompletion(s: Store, connection: ConnectionId, later: seq<Action>, a: Action)
    requires Enabled(s, Revoke(connection)) && Run(Apply(s, Revoke(connection)), later)
    requires a.CompleteActive?
    ensures var revision, w := s.authorities[connection].revision, After(Apply(s, Revoke(connection)), later);
            var own := a.connection == connection && a.revision == revision;
            var row := a.lease.event in w.events
                       && w.events[a.lease.event].connection == connection && w.events[a.lease.event].revision == revision;
            && (own || row ==> EventsAfter(w, a) == w.events && Present(w, a).1.Err?)
            && (own && WellFormed(a) ==>
                  Present(w, a).1 == Err(if OwnsMatching(w.events, a.lease, connection, revision, a.now)
                                         then ConnectionUnavailable else LostLease))
  {
    FenceHolds(Apply(s, Revoke(connection)), later, connection, s.authorities[connection].revision);
  }

  /** A completed row's authorization was active at the instant of its completion. */
  lemma CompletionIsAuthorized(s: Store, a: Action)
    requires a.CompleteActive? && Present(s, a).1.Ok?
    ensures var e := a.lease.event;
            && e in s.events && IsActive(s.authorities, s.events[e].connection, s.events[e].revision)
            && EventsAfter(s, a)[e].kind == Some(Completed)
            && EventsAfter(s, a)[e].response == Some(a.answer)
  {
  }
}
