/** What each step of the execution protocol writes, in the columns of the event's row and of the device clock. */
module ExecutionOutcomes {
  import opened Types
  import opened Execution
  import L = Ledger
  import O = LedgerOutcomes

  /** The lease asked for is the remaining budget rounded up to seconds, and one second more. */
  lemma PreparedLease(w: World, a: Action)
    requires a.Prepare? && Enabled(w, a)
    ensures var ready, remaining := AgentOf(Apply(w, a), a.i), a.deadline - w.clock;
            && ready.Ready? && ready.wake == a.wake && ready.deadline == a.deadline
            && ready.leaseNanos % 1_000_000_000 == 0
            && ready.leaseNanos - 2_000_000_000 < remaining <= ready.leaseNanos - 1_000_000_000
  {
    var remaining := a.deadline - w.clock;
    assert remaining == remaining / 1_000_000_000 * 1_000_000_000 + remaining % 1_000_000_000;
  }

  /** A claim is made for the request's own event and authorization, at the clock's whole second, for its lease. */
  lemma ClaimedRow(w: World, a: Action)
    requires a.Claim? && Enabled(w, a) && AgentOf(Apply(w, a), a.i).Owner?
    ensures var ready, event := AgentOf(w, a.i), AgentOf(w, a.i).wake.event;
            var now, before, after := w.clock / 1_000_000_000, w.store.events, Apply(w, a).store.events;
            && after == before[event := after[event]]
            && after[event].connection == ready.wake.connection && after[event].revision == ready.wake.revision
            && after[event].state == L.Claimed && after[event].updatedAt == now
            && after[event].availableAt == Some(now + ready.leaseNanos / 1_000_000_000)
            && (after[event].accepted <==> event in before && before[event].accepted)
  {
    var ready := AgentOf(w, a.i);
    O.AcquiredRow(w.store.events, ready.wake.event, ready.wake.connection, ready.wake.revision, Seconds(w.clock), ready.leaseNanos, a.draw);
  }

  /** Giving a claim back makes the event claimable five seconds later. */
  lemma ReleasedRow(w: World, a: Action)
    requires a.Release? && Enabled(w, a)
    ensures var lease, now := AgentOf(w, a.i).lease, w.clock / 1_000_000_000;
            var before, after := w.store.events, Apply(w, a).store.events;
            if O.LiveClaim(before, lease, now) && now + 5 <= I64_MAX
            then after == before[lease.event := before[lease.event].(state := L.Retryable, token := None,
                                                                     availableAt := Some(now + 5), updatedAt := now)]
            else after == before
  {
    O.ReleaseExactly(w.store.events, AgentOf(w, a.i).lease, Seconds(w.clock), ENGINE_RETRY_NANOS);
  }

  /** A rejection makes the live claim terminal without a response. */
  lemma RejectedRow(w: World, a: Action)
    requires (a.Reject? || a.RejectLate?) && Enabled(w, a)
    ensures var lease, now := AgentOf(w, a.i).lease, w.clock / 1_000_000_000;
            var before, after := w.store.events, Apply(w, a).store.events;
            if O.LiveClaim(before, lease, now) && now <= I64_MAX
            then after == before[lease.event := before[lease.event].(state := L.Terminal, token := None, availableAt := None,
                                                                     updatedAt := now, kind := Some(L.Rejected),
                                                                     response := None, requestMethod := None)]
            else after == before
  {
    O.CompletionExactly(w.store.events, AgentOf(w, a.i).lease, L.Rejected, None, Seconds(w.clock));
  }

  /** A commit that takes effect stores this response and method, under the active authorization of the request. */
  lemma CommittedRow(w: World, a: Action)
    requires a.Commit? && Enabled(w, a) && AgentOf(Apply(w, a), a.i).Holding?
    ensures var agent, now := AgentOf(w, a.i), w.clock / 1_000_000_000;
            var before, after := w.store.events, Apply(w, a).store.events;
            && O.LiveClaim(before, agent.lease, now)
            && agent.wake.connection in w.store.authorities
            && w.store.authorities[agent.wake.connection].revision == agent.wake.revision
            && w.store.authorities[agent.wake.connection].active
            && after == before[agent.lease.event := before[agent.lease.event].(state := L.Terminal, token := None, availableAt := None,
                                                                               updatedAt := now, kind := Some(L.Completed),
                                                                               response := Some(a.json), requestMethod := a.requestMethod)]
            && AgentOf(Apply(w, a), a.i).json == a.json
  {
    var agent := AgentOf(w, a.i);
    if |a.json| <= 131_072 && Seconds(w.clock) <= I64_MAX && agent.wake.revision <= I64_MAX {
      O.AuthorizedCompletionExactly(w.store.events, w.store.authorities, agent.lease, agent.wake.connection, agent.wake.revision,
                                    a.json, a.requestMethod, Seconds(w.clock));
    }
  }

  /** The gate's transaction sets the freshness flag of the live claim. */
  lemma AcceptedRow(w: World, a: Action)
    requires a.AcceptTime? && Enabled(w, a)
    ensures var lease, now := AgentOf(w, a.i).lease, w.clock / 1_000_000_000;
            var before, after := w.store.events, Apply(w, a).store.events;
            && (AgentOf(Apply(w, a), a.i).stage.Working? <==> O.LiveClaim(before, lease, now) && now <= I64_MAX)
            && after == if O.LiveClaim(before, lease, now) && now <= I64_MAX
                        then before[lease.event := before[lease.event].(accepted := true, updatedAt := now)] else before
  {
    O.AcceptanceExactly(w.store.events, AgentOf(w, a.i).lease, Seconds(w.clock));
  }
}
