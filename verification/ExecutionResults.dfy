/** Results over whole runs of the execution protocol, from an empty event table. */
module ExecutionResults {
  import opened Types
  import opened Execution
  import opened ExecutionSafety
  import L = Ledger
  import LS = LedgerSafety

  lemma InitIsInv(w: World)
    requires Init(w)
    ensures Inv(w)
  {
  }

  lemma {:induction false} OrderedAt(w: World, history: seq<Entry>, k: nat)
    requires Ordered(w, history) && k < |history|
    ensures Justified(w, history[..k], history[k])
    decreases |history|
  {
    if k < |history| - 1 {
      OrderedAt(w, history[..|history| - 1], k);
      assert history[..|history| - 1][..k] == history[..k];
    }
  }

  // ---- One stored response ----

  lemma StoredOnce(w: World, history: seq<Entry>, j: nat, k: nat)
    requires Ordered(w, history) && j < k < |history|
    ensures !(history[j].Stored? && history[k].Stored?
              && history[j].event == history[k].event && history[j].round == history[k].round)
  {
    OrderedAt(w, history, k);
    assert history[..k][j] in history[..k];
  }

  /** A response sent in the round of a stored one is that one. */
  lemma SameResponse(w: World, history: seq<Entry>, j: nat, n: nat)
    requires Ordered(w, history) && j < |history| && n < |history| && history[j].Stored? && history[n].Sent?
    requires history[n].event == history[j].event && history[n].round == history[j].round
    ensures history[n].json == history[j].json
  {
    OrderedAt(w, history, n);
    var m :| 0 <= m < n && history[..n][m] == Stored(history[n].event, history[n].round, history[n].json);
    if j < m {
      StoredOnce(w, history, j, m);
    } else if m < j {
      StoredOnce(w, history, m, j);
    }
  }

  /**
   Every response published for one event in one round, across processes, retries, crashes and failed
   publishes, is the one that was durably stored before it, and follows a look that found the
   authorization active; while the row is not pruned it is exactly what the terminal row holds.
   */
  lemma PublishesAreTheStoredResponse(start: World, actions: seq<Action>, k: nat, n: nat)
    requires Init(start) && Run(start, actions)
    ensures var w := After(start, actions);
            k < |w.history| && w.history[k].Sent? ==>
              var e, json := w.history[k].event, w.history[k].json;
              && (exists j :: 0 <= j < k && w.history[j] == Stored(e, w.history[k].round, json))
              && (exists j :: 0 <= j < k && w.history[j] == Confirmed(e, w.history[k].round))
              && (w.history[k].round == Round(w, e) ==>
                    e in w.store.events && w.store.events[e].state.Terminal?
                    && w.store.events[e].kind == Some(L.Completed) && w.store.events[e].response == Some(json))
              && (n < |w.history| && w.history[n].Sent? && w.history[n].event == e && w.history[n].round == w.history[k].round
                  ==> w.history[n].json == json)
  {
    InitIsInv(start);
    RunKeepsInv(start, actions);
    var w := After(start, actions);
    if k < |w.history| && w.history[k].Sent? {
      var p := Stored(w.history[k].event, w.history[k].round, w.history[k].json);
      OrderedAt(w, w.history, k);
      assert p in w.history[..k];
      assert EntryOk(w, p);
      var j :| 0 <= j < k && w.history[..k][j] == p;
      var c :| 0 <= c < k && w.history[..k][c] == Confirmed(p.event, p.round);
      assert w.history[c] == Confirmed(p.event, p.round);
      if n < |w.history| && w.history[n].Sent? && w.history[n].event == p.event && w.history[n].round == p.round {
        SameResponse(w, w.history, j, n);
      }
    }
  }

  // ---- The freshness gate ----

  /** Every secret load and wallet call comes after an owner had the event's time accepted in that round. */
  lemma HostCallsAreAdmitted(start: World, actions: seq<Action>, k: nat)
    requires Init(start) && Run(start, actions)
    ensures var w := After(start, actions);
            k < |w.history| && w.history[k].HostCall? ==>
              exists j :: 0 <= j < k && w.history[j].Admitted?
                          && w.history[j].event == w.history[k].event && w.history[j].round == w.history[k].round
                          && w.createdAt(w.history[k].event) <= w.history[j].checkedAt + w.policy.maximumFutureSeconds
                          && w.history[j].checkedAt <= w.createdAt(w.history[k].event) + w.policy.maximumAgeSeconds
  {
    InitIsInv(start);
    RunKeepsInv(start, actions);
    var w := After(start, actions);
    if k < |w.history| && w.history[k].HostCall? {
      OrderedAt(w, w.history, k);
      var p :| p in w.history[..k] && p.Admitted? && p.event == w.history[k].event && p.round == w.history[k].round;
      var j :| 0 <= j < k && w.history[..k][j] == p;
      OrderedAt(w, w.history, j);
    }
  }

  /** Without a prune of its row an event keeps its round and its row moves forward. */
  lemma {:induction false} UnprunedRowsMoveForward(w: World, actions: seq<Action>, e: EventId)
    requires Inv(w) && Run(w, actions) && Unpruned(actions, e) && e in w.store.events
    ensures var w' := After(w, actions);
            && e in w'.store.events && LS.RowForward(w.store.events[e], w'.store.events[e])
            && Round(w', e) == Round(w, e)
    decreases |actions|
  {
    if actions != [] {
      var a := actions[0];
      assert a in actions;
      StepMovesRowForward(w, a, e);
      StepKeepsInv(w, a);
      assert forall b <- actions[1..] :: b in actions;
      UnprunedRowsMoveForward(Apply(w, a), actions[1..], e);
    }
  }

  lemma StepMovesRowForward(w: World, a: Action, e: EventId)
    requires LS.Inv(w.store) && Enabled(w, a) && e in w.store.events && (a.Prune? ==> e !in a.batch)
    ensures e in Apply(w, a).store.events
    ensures LS.RowForward(w.store.events[e], Apply(w, a).store.events[e]) && Round(Apply(w, a), e) == Round(w, e)
  {
    RoundsGrow(w, a, e);
    if Transaction(w, a).Some? {
      LS.StepMovesForward(w.store, Transaction(w, a).value, e);
    }
  }

  /**
   An event found stale on its first check and durably rejected never executes, and no response is
   published for it, until its row is pruned.
   */
  lemma StaleRejectedNeverExecutes(start: World, before: seq<Action>, i: nat, later: seq<Action>)
    requires Init(start) && Run(start, before)
    requires Enabled(After(start, before), RejectLate(i))
    requires var w := After(start, before);
             L.CompleteEvent(w.store.events, AgentOf(w, i).lease, L.Rejected, None, Seconds(w.clock)).1.Ok?
    requires Run(Apply(After(start, before), RejectLate(i)), later)
    requires Unpruned(later, AgentOf(After(start, before), i).wake.event)
    ensures var w := After(start, before);
            var e, end := AgentOf(w, i).wake.event, After(Apply(w, RejectLate(i)), later);
            && e in end.store.events && end.store.events[e].kind == Some(L.Rejected)
            && HostCall(e, Round(end, e)) !in end.history
            && forall json :: Sent(e, Round(end, e), json) !in end.history
  {
    var w := After(start, before);
    var e, next := AgentOf(w, i).wake.event, Apply(w, RejectLate(i));
    InitIsInv(start);
    RunKeepsInv(start, before);
    assert AgentOk(w, AgentOf(w, i));
    StepKeepsInv(w, RejectLate(i));
    assert !next.store.events[e].accepted && next.store.events[e].state.Terminal?;
    UnprunedRowsMoveForward(next, later, e);
    RunKeepsInv(next, later);
    UnacceptedNeverCalled(After(next, later), e);
  }

  lemma CallsFollowAdmission(w: World, history: seq<Entry>, e: EventId, round: nat)
    requires Ordered(w, history)
    ensures HostCall(e, round) in history ==> Admits(history, e, round)
    ensures forall json :: Sent(e, round, json) in history ==> Stored(e, round, json) in history
  {
    forall k | 0 <= k < |history|
      ensures history[k] == HostCall(e, round) ==> Admits(history, e, round)
      ensures history[k].Sent? && history[k].event == e && history[k].round == round ==>
                Stored(e, round, history[k].json) in history
    {
      OrderedAt(w, history, k);
      assert forall p <- history[..k] :: p in history;
    }
  }

  lemma UnacceptedNeverCalled(w: World, e: EventId)
    requires Inv(w) && e in w.store.events && !w.store.events[e].accepted && w.store.events[e].response.None?
    ensures HostCall(e, Round(w, e)) !in w.history
    ensures forall json :: Sent(e, Round(w, e), json) !in w.history
  {
    assert forall p <- w.history :: EntryOk(w, p);
    CallsFollowAdmission(w, w.history, e, Round(w, e));
  }

  /** An accepted event may resume at any later time without passing the window again. */
  lemma AcceptedEventResumes(start: World, before: seq<Action>, e: EventId, later: seq<Action>, i: nat, draw: Option<Token>)
    requires Init(start) && Run(start, before)
    requires e in After(start, before).store.events && After(start, before).store.events[e].accepted
    requires Run(After(start, before), later) && Unpruned(later, e)
    requires Enabled(After(After(start, before), later), Claim(i, draw))
    requires AgentOf(After(After(start, before), later), i).wake.event == e
    ensures var end := After(After(start, before), later);
            var agent := AgentAfter(end, Claim(i, draw));
            agent.Owner? ==> agent.stage.Working?
  {
    InitIsInv(start);
    RunKeepsInv(start, before);
    UnprunedRowsMoveForward(After(start, before), later, e);
  }

  // ---- The lease covers the deadline ----

  /** The lease outlasts the deadline for every sub-second clock value, and never overflows for storable budgets. */
  lemma LeaseCoversDeadline(clock: nat, remaining: nat)
    requires LeaseForBudget(remaining).Some?
    ensures (Seconds(clock) + LeaseForBudget(remaining).value / NANOS_PER_SECOND) * NANOS_PER_SECOND > clock + remaining
    ensures LeaseForBudget(remaining).value >= remaining + NANOS_PER_SECOND
    ensures LeaseForBudget(remaining).value % NANOS_PER_SECOND == 0
  {
    var n := remaining / NANOS_PER_SECOND + (if remaining % NANOS_PER_SECOND != 0 then 1 else 0) + 1;
    assert LeaseForBudget(remaining).value == n * NANOS_PER_SECOND;
    assert n * NANOS_PER_SECOND / NANOS_PER_SECOND == n;
  }

  /** The lease of one second less. */
  function Shorter(remaining: nat): nat
    requires LeaseForBudget(remaining).Some?
  {
    LeaseForBudget(remaining).value / NANOS_PER_SECOND - 1
  }

  /** One second less would leave some clock value uncovered, unless the budget ends one nanosecond into a second. */
  lemma LeaseIsTight(remaining: nat)
    requires LeaseForBudget(remaining).Some?
    ensures (exists clock: nat :: (Seconds(clock) + Shorter(remaining)) * NANOS_PER_SECOND < clock + remaining)
            <==> remaining % NANOS_PER_SECOND != 1
  {
    var q, f := remaining / NANOS_PER_SECOND, remaining % NANOS_PER_SECOND;
    var short := Shorter(remaining);
    assert short == q + (if f != 0 then 1 else 0) by { LeaseCoversDeadline(0, remaining); }
    if f == 1 {
      forall clock: nat
        ensures (Seconds(clock) + short) * NANOS_PER_SECOND >= clock + remaining
      {
        assert clock == Seconds(clock) * NANOS_PER_SECOND + clock % NANOS_PER_SECOND;
      }
    } else {
      var clock: nat := NANOS_PER_SECOND - 1;
      assert Seconds(clock) == 0;
      assert (Seconds(clock) + short) * NANOS_PER_SECOND < clock + remaining;
    }
  }

  // ---- One process at a time before its deadline ----

  /** Before its deadline an owner holds its row past that deadline. */
  ghost predicate LeaseCovers(w: World, agent: Agent) {
    match agent
    case Ready(_, deadline, leaseNanos) =>
      leaseNanos % NANOS_PER_SECOND == 0 && leaseNanos + w.clock >= deadline + NANOS_PER_SECOND
    case Owner(_, wake, lease, _, deadline) =>
      w.clock < deadline ==>
        && L.Holds(w.store.events, wake.event, lease.token)
        && w.store.events[wake.event].availableAt.Some?
        && w.store.events[wake.event].availableAt.value * NANOS_PER_SECOND > deadline
    case _ => true
  }

  ghost predicate Timed(w: World) {
    forall i <- w.agents :: LeaseCovers(w, w.agents[i])
  }

  /** The row of a covered owner is not touched by another process. */
  lemma OthersSpareCoveredRow(w: World, a: Action, agent: Agent)
    requires LS.Inv(w.store) && Enabled(w, a) && agent.Owner? && agent.lease.event == agent.wake.event
    requires w.clock < agent.deadline && LeaseCovers(w, agent)
    requires Actor(a).Some? && AgentOf(w, a.i).Owner? ==> AgentOf(w, a.i).lease.token != agent.lease.token
    ensures agent.wake.event in Apply(w, a).store.events
    ensures Apply(w, a).store.events[agent.wake.event] == w.store.events[agent.wake.event]
  {
    var e, t := agent.wake.event, Transaction(w, a);
    assert Seconds(w.clock) * NANOS_PER_SECOND <= w.clock;
    assert w.store.events[e].availableAt.value > Seconds(w.clock);
    if t.Some? && L.PresentsLease(t.value) {
      OtherLeaseSparesRow(w.store, t.value, e, agent.lease.token);
    } else if t.Some? {
      ClaimSparesWaitingRow(w.store, t.value, e);
    }
  }

  lemma ClaimSparesWaitingRow(s: L.Store, a: L.Action, e: EventId)
    requires L.Enabled(s, a) && !L.PresentsLease(a) && e in s.events && s.events[e].state.Claimed?
    requires s.events[e].availableAt.Some? && (a.ClaimRow? ==> s.events[e].availableAt.value > a.now)
    ensures e in L.EventsAfter(s, a) && L.EventsAfter(s, a)[e] == s.events[e]
  {
  }

  lemma OtherLeaseSparesRow(s: L.Store, a: L.Action, e: EventId, token: Token)
    requires L.PresentsLease(a) && a.lease.token != token && L.Holds(s.events, e, token)
    ensures e in L.EventsAfter(s, a) && L.EventsAfter(s, a)[e] == s.events[e]
  {
  }

  lemma ActorStaysCovered(w: World, a: Action)
    requires Enabled(w, a) && Actor(a).Some? && AgentOk(w, AgentOf(w, a.i)) && LeaseCovers(w, AgentOf(w, a.i))
    requires LS.Inv(w.store)
    ensures LeaseCovers(Apply(w, a), AgentAfter(w, a))
  {
    var agent := AgentOf(w, a.i);
    if a.Prepare? {
      LeaseCoversDeadline(w.clock, a.deadline - w.clock);
    } else if a.Claim? {
      ClaimantIsCovered(w, a);
    }
  }

  lemma ClaimantIsCovered(w: World, a: Action)
    requires Enabled(w, a) && a.Claim? && LeaseCovers(w, AgentOf(w, a.i)) && LS.Inv(w.store)
    ensures LeaseCovers(Apply(w, a), AgentAfter(w, a))
  {
    var agent := AgentOf(w, a.i);
    var n := agent.leaseNanos / NANOS_PER_SECOND;
    assert agent.leaseNanos == n * NANOS_PER_SECOND;
    assert w.clock < Seconds(w.clock) * NANOS_PER_SECOND + NANOS_PER_SECOND;
    assert (Seconds(w.clock) + n) * NANOS_PER_SECOND == Seconds(w.clock) * NANOS_PER_SECOND + n * NANOS_PER_SECOND;
  }

  lemma StepStaysTimed(w: World, a: Action)
    requires Inv(w) && Timed(w) && Enabled(w, a) && (a.Tick? ==> a.clock >= w.clock)
    ensures Timed(Apply(w, a))
  {
    var w' := Apply(w, a);
    forall i | i in w'.agents
      ensures LeaseCovers(w', w'.agents[i])
    {
      if Actor(a) == Some(i) {
        assert AgentOk(w, AgentOf(w, i));
        ActorStaysCovered(w, a);
      } else {
        assert LeaseCovers(w, w.agents[i]) && AgentOk(w, w.agents[i]);
        if w.agents[i].Owner? && w'.clock < w.agents[i].deadline {
          OthersSpareCoveredRow(w, a, w.agents[i]);
        }
      }
    }
  }

  lemma {:induction false} RunStaysTimed(w: World, actions: seq<Action>)
    requires Inv(w) && Timed(w) && Run(w, actions) && Monotone(w, actions)
    ensures Timed(After(w, actions))
    decreases |actions|
  {
    if actions != [] {
      StepStaysTimed(w, actions[0]);
      StepKeepsInv(w, actions[0]);
      RunStaysTimed(Apply(w, actions[0]), actions[1..]);
    }
  }

  /**
   While the clock does not go back, whenever a process may cross the host boundary for an event it
   still holds the row, no other process may cross it for that event, and any process that tries
   to claim the event is told to wait beyond the deadline.
   */
  lemma HostCallsAreExclusive(start: World, actions: seq<Action>, i: nat, j: nat, draw: Option<Token>)
    requires Init(start) && Run(start, actions) && Monotone(start, actions)
    requires Enabled(After(start, actions), Call(i))
    ensures var w := After(start, actions);
            var agent, other := AgentOf(w, i), AgentOf(w, j);
            && L.Holds(w.store.events, agent.wake.event, agent.lease.token)
            && (Enabled(w, Call(j)) && other.wake.event == agent.wake.event ==> i == j)
            && (Enabled(w, Claim(j, draw)) && other.wake.event == agent.wake.event ==>
                  Apply(w, Claim(j, draw)).store.events == w.store.events && !AgentAfter(w, Claim(j, draw)).Owner?)
  {
    InitIsInv(start);
    RunKeepsInv(start, actions);
    RunStaysTimed(start, actions);
    var w := After(start, actions);
    assert LeaseCovers(w, AgentOf(w, i)) && LeaseCovers(w, AgentOf(w, j));
    assert AgentOk(w, AgentOf(w, i)) && AgentOk(w, AgentOf(w, j));
    HolderExcludesOthers(w, i, j);
    CoveredRowIsNotClaimed(w, i, j, draw);
  }

  /** Two processes that hold the same row are the same process. */
  lemma HolderExcludesOthers(w: World, i: nat, j: nat)
    requires Agents(w) && Enabled(w, Call(i)) && LeaseCovers(w, AgentOf(w, i)) && LeaseCovers(w, AgentOf(w, j))
    ensures Enabled(w, Call(j)) && AgentOf(w, j).wake.event == AgentOf(w, i).wake.event ==> i == j
  {
  }

  lemma CoveredRowIsNotClaimed(w: World, i: nat, j: nat, draw: Option<Token>)
    requires Enabled(w, Call(i)) && LeaseCovers(w, AgentOf(w, i))
    ensures Enabled(w, Claim(j, draw)) && AgentOf(w, j).wake.event == AgentOf(w, i).wake.event ==>
              Apply(w, Claim(j, draw)).store.events == w.store.events && !AgentAfter(w, Claim(j, draw)).Owner?
  {
    assert Seconds(w.clock) * NANOS_PER_SECOND <= w.clock;
  }
}
