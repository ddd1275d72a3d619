/** What every run of the execution protocol keeps: the freshness gate and the one stored response. */
module ExecutionSafety {
  import opened Types
  import opened Execution
  import L = Ledger
  import LS = LedgerSafety

  // ---- Reading the history ----

  ghost predicate Admits(history: seq<Entry>, event: EventId, round: nat) {
    exists p <- history :: p.Admitted? && p.event == event && p.round == round
  }

  ghost predicate StoredIn(history: seq<Entry>, event: EventId, round: nat) {
    exists p <- history :: p.Stored? && p.event == event && p.round == round
  }

  /** What must already have happened for an entry to follow. */
  ghost predicate Justified(w: World, before: seq<Entry>, p: Entry) {
    match p
    case Admitted(event, _, checkedAt) => AcceptsEventTime(w.policy, w.createdAt(event), checkedAt)
    case HostCall(event, round) => Admits(before, event, round)
    case Stored(event, round, _) => !StoredIn(before, event, round)
    case Confirmed(event, round) => StoredIn(before, event, round)
    case Sent(event, round, json) => Stored(event, round, json) in before && Confirmed(event, round) in before
  }

  ghost predicate Ordered(w: World, history: seq<Entry>)
    decreases |history|
  {
    history == []
    || (Ordered(w, history[..|history| - 1]) && Justified(w, history[..|history| - 1], history[|history| - 1]))
  }

  // ---- The invariant ----

  ghost predicate RowOk(w: World, e: EventId)
    requires e in w.store.events
  {
    && (w.store.events[e].accepted ==> Admits(w.history, e, Round(w, e)))
    && (w.store.events[e].response.Some? ==> Stored(e, Round(w, e), w.store.events[e].response.value) in w.history)
  }

  ghost predicate EntryOk(w: World, p: Entry) {
    && p.round <= Round(w, p.event)
    && (p.round == Round(w, p.event) && p.Admitted? ==> p.event in w.store.events && w.store.events[p.event].accepted)
    && (p.round == Round(w, p.event) && p.Stored? ==>
          && p.event in w.store.events
          && w.store.events[p.event].state.Terminal?
          && w.store.events[p.event].kind == Some(L.Completed)
          && w.store.events[p.event].response == Some(p.json))
  }

  ghost predicate Tables(w: World) {
    && LS.Inv(w.store)
    && (forall e <- w.store.events :: RowOk(w, e))
    && (forall p <- w.history :: EntryOk(w, p))
  }

  ghost predicate AgentOk(w: World, agent: Agent) {
    match agent
    case Owner(stage, wake, lease, round, _) =>
      && lease.event == wake.event
      && lease.token in w.store.drawn
      && (L.Holds(w.store.events, wake.event, lease.token) ==>
            round == Round(w, wake.event) && (!stage.Working? ==> !w.store.events[wake.event].accepted))
      && round <= Round(w, wake.event)
      && (stage.Working? ==> Admits(w.history, wake.event, round))
      && (stage.Timely? ==> AcceptsEventTime(w.policy, w.createdAt(wake.event), stage.checkedAt))
    case Holding(wake, json, round, _) => Stored(wake.event, round, json) in w.history
    case Sending(wake, json, round, _) =>
      Stored(wake.event, round, json) in w.history && Confirmed(wake.event, round) in w.history
    case _ => true
  }

  ghost predicate Agents(w: World) {
    && (forall i <- w.agents :: AgentOk(w, w.agents[i]))
    && (forall i <- w.agents, j <- w.agents :: i != j && w.agents[i].Owner? && w.agents[j].Owner? ==>
          w.agents[i].lease.token != w.agents[j].lease.token)
  }

  ghost predicate Inv(w: World) {
    Tables(w) && Agents(w) && Ordered(w, w.history)
  }

  // ---- The tables ----

  /** A transaction that neither admits, stores nor prunes. */
  lemma RowWriteKeepsTables(w: World, w': World, e: EventId, row: L.EventRow)
    requires Tables(w) && LS.Inv(w'.store)
    requires w'.store.events == w.store.events[e := row] && w'.rounds == w.rounds && w'.history == w.history
    requires row.accepted == (e in w.store.events && w.store.events[e].accepted)
    requires row.response.None?
    requires e in w.store.events ==> !w.store.events[e].state.Terminal?
    ensures Tables(w')
  {
    forall d | d in w'.store.events
      ensures RowOk(w', d)
    {
      assert d in w.store.events ==> RowOk(w, d);
    }
    forall p | p in w'.history
      ensures EntryOk(w', p)
    {
      assert EntryOk(w, p);
    }
  }

  /** A step that leaves rows and rounds alone and adds at most one wallet call or publication. */
  lemma QuietStepKeepsTables(w: World, w': World, added: seq<Entry>)
    requires Tables(w) && LS.Inv(w'.store)
    requires w'.store.events == w.store.events && w'.rounds == w.rounds && w'.history == w.history + added
    requires forall p <- added :: (p.HostCall? || p.Sent? || p.Confirmed?) && p.round <= Round(w, p.event)
    ensures Tables(w')
  {
    forall e | e in w'.store.events
      ensures RowOk(w', e)
    {
      assert RowOk(w, e);
    }
    forall p | p in w'.history
      ensures EntryOk(w', p)
    {
      assert p in w.history ==> EntryOk(w, p);
    }
  }

  lemma AdmissionKeepsTables(w: World, w': World, e: EventId, p: Entry)
    requires Tables(w) && LS.Inv(w'.store) && e in w.store.events && !w.store.events[e].state.Terminal?
    requires w'.store.events.Keys == w.store.events.Keys && w'.store.events == w.store.events[e := w'.store.events[e]]
    requires w'.store.events[e].accepted && w'.store.events[e].response == w.store.events[e].response
    requires w'.rounds == w.rounds
    requires p.Admitted? && p.event == e && p.round == Round(w, e) && w'.history == w.history + [p]
    ensures Tables(w')
  {
    assert p in w'.history;
    forall d | d in w'.store.events
      ensures RowOk(w', d)
    {
      assert RowOk(w, d);
    }
    forall q | q in w'.history
      ensures EntryOk(w', q)
    {
      assert q in w.history ==> EntryOk(w, q);
    }
  }

  lemma CommitKeepsTables(w: World, w': World, e: EventId, json: string)
    requires Tables(w) && LS.Inv(w'.store) && e in w.store.events && !w.store.events[e].state.Terminal?
    requires e in w'.store.events && w'.store.events == w.store.events[e := w'.store.events[e]]
    requires var row := w'.store.events[e];
             && row.accepted == w.store.events[e].accepted && row.state.Terminal?
             && row.kind == Some(L.Completed) && row.response == Some(json)
    requires w'.rounds == w.rounds && w'.history == w.history + [Stored(e, Round(w, e), json)]
    ensures Tables(w')
  {
    var p := Stored(e, Round(w, e), json);
    assert p in w'.history;
    forall d | d in w'.store.events
      ensures RowOk(w', d)
    {
      assert RowOk(w, d);
    }
    forall q | q in w'.history
      ensures EntryOk(w', q)
    {
      assert q in w.history ==> EntryOk(w, q);
    }
  }

  lemma DeletionKeepsTables(w: World, w': World, batch: set<EventId>)
    requires Tables(w) && LS.Inv(w'.store)
    requires w'.store.events == w.store.events - batch && w'.history == w.history
    requires forall e :: Round(w', e) == Round(w, e) + (if e in batch then 1 else 0)
    ensures Tables(w')
  {
    forall e | e in w'.store.events
      ensures RowOk(w', e)
    {
      assert RowOk(w, e);
    }
    forall p | p in w'.history
      ensures EntryOk(w', p)
    {
      assert EntryOk(w, p);
    }
  }

  lemma PruneKeepsTables(w: World, a: Action)
    requires Tables(w) && a.Prune? && Enabled(w, a)
    ensures Tables(Apply(w, a))
  {
    var w' := Apply(w, a);
    LS.StepKeepsInv(w.store, L.Prune(a.batch, a.cutoff, a.maximum));
    forall e: EventId
      ensures Round(w', e) == Round(w, e) + (if e in a.batch then 1 else 0)
    {
      PruneEndsRounds(w, a, e);
    }
    DeletionKeepsTables(w, w', a.batch);
  }

  lemma PruneEndsRounds(w: World, a: Action, e: EventId)
    requires a.Prune? && Enabled(w, a)
    ensures Round(Apply(w, a), e) == Round(w, e) + (if e in a.batch then 1 else 0)
  {
  }

  /** A claim writes an unaccepted new row or renews the token of an open one. */
  lemma ClaimKeepsTables(w: World, a: Action)
    requires Tables(w) && a.Claim? && Enabled(w, a)
    ensures Tables(Apply(w, a))
  {
    var w', e := Apply(w, a), AgentOf(w, a.i).wake.event;
    LS.StepKeepsInv(w.store, Transaction(w, a).value);
    if w'.store.events == w.store.events {
      QuietStepKeepsTables(w, w', []);
    } else {
      RowWriteKeepsTables(w, w', e, w'.store.events[e]);
    }
  }

  /** A rejection writes only a row the process owns. */
  lemma RejectionKeepsTables(w: World, a: Action)
    requires Tables(w) && Enabled(w, a) && (a.RejectLate? || a.Reject?)
    ensures Tables(Apply(w, a))
  {
    var w', e := Apply(w, a), AgentOf(w, a.i).lease.event;
    LS.StepKeepsInv(w.store, Transaction(w, a).value);
    if w'.store.events == w.store.events {
      QuietStepKeepsTables(w, w', []);
    } else {
      assert L.RowCheck(w.store.events[e]);
      RowWriteKeepsTables(w, w', e, w'.store.events[e]);
    }
  }

  lemma ReleaseKeepsTables(w: World, a: Action)
    requires Tables(w) && Enabled(w, a) && a.Release?
    ensures Tables(Apply(w, a))
  {
    var w', e := Apply(w, a), AgentOf(w, a.i).lease.event;
    LS.StepKeepsInv(w.store, Transaction(w, a).value);
    if w'.store.events == w.store.events {
      QuietStepKeepsTables(w, w', []);
    } else {
      assert L.RowCheck(w.store.events[e]);
      RowWriteKeepsTables(w, w', e, w'.store.events[e]);
    }
  }

  lemma AcceptKeepsTables(w: World, a: Action)
    requires Tables(w) && Enabled(w, a) && a.AcceptTime? && AgentOk(w, AgentOf(w, a.i))
    ensures Tables(Apply(w, a))
  {
    var w', agent := Apply(w, a), AgentOf(w, a.i);
    LS.StepKeepsInv(w.store, Transaction(w, a).value);
    if AgentAfter(w, a).stage.Working? {
      AdmissionKeepsTables(w, w', agent.lease.event, EntryOf(w, a).value);
    } else {
      QuietStepKeepsTables(w, w', []);
    }
  }

  lemma CommitStepKeepsTables(w: World, a: Action)
    requires Tables(w) && Enabled(w, a) && a.Commit? && AgentOk(w, AgentOf(w, a.i))
    ensures Tables(Apply(w, a))
  {
    var w', agent := Apply(w, a), AgentOf(w, a.i);
    LS.StepKeepsInv(w.store, Transaction(w, a).value);
    if AgentAfter(w, a).Holding? {
      CommitKeepsTables(w, w', agent.lease.event, a.json);
    } else {
      QuietStepKeepsTables(w, w', []);
    }
  }

  lemma OtherStepKeepsTables(w: World, a: Action)
    requires Tables(w) && Enabled(w, a)
    requires Actor(a).Some? ==> AgentOk(w, AgentOf(w, a.i))
    requires !a.Claim? && !a.AcceptTime? && !a.RejectLate? && !a.Reject? && !a.Release? && !a.Commit? && !a.Prune?
    ensures Tables(Apply(w, a))
  {
    var entry := EntryOf(w, a);
    if a.Register? || a.Revoke? {
      LS.StepKeepsInv(w.store, Transaction(w, a).value);
    }
    if a.Publish? || a.Confirm? {
      var agent := AgentOf(w, a.i);
      assert EntryOk(w, Stored(agent.wake.event, agent.round, agent.json));
    }
    QuietStepKeepsTables(w, Apply(w, a), if entry.Some? then [entry.value] else []);
  }

  lemma StepKeepsTables(w: World, a: Action)
    requires Tables(w) && Agents(w) && Enabled(w, a)
    ensures Tables(Apply(w, a))
  {
    assert Actor(a).Some? ==> AgentOk(w, AgentOf(w, a.i));
    if a.Claim? {
      ClaimKeepsTables(w, a);
    } else if a.AcceptTime? {
      AcceptKeepsTables(w, a);
    } else if a.RejectLate? || a.Reject? {
      RejectionKeepsTables(w, a);
    } else if a.Release? {
      ReleaseKeepsTables(w, a);
    } else if a.Commit? {
      CommitStepKeepsTables(w, a);
    } else if a.Prune? {
      PruneKeepsTables(w, a);
    } else {
      OtherStepKeepsTables(w, a);
    }
  }

  // ---- The processes ----

  /** What one token holds is not moved from `events` to `events'`. */
  ghost predicate Unmoved(events: map<EventId, L.EventRow>, events': map<EventId, L.EventRow>, e: EventId, token: Token) {
    L.Holds(events', e, token) ==> L.Holds(events, e, token) && events'[e].accepted == events[e].accepted
  }

  lemma OtherClaimLeavesToken(s: L.Store, a: L.Action, e: EventId, token: Token)
    requires L.Enabled(s, a) && a.ClaimRow? && token in s.drawn
    ensures Unmoved(s.events, L.EventsAfter(s, a), e, token)
  {
  }

  lemma OtherLeaseLeavesToken(s: L.Store, a: L.Action, e: EventId, token: Token)
    requires L.PresentsLease(a) && a.lease.token != token
    ensures Unmoved(s.events, L.EventsAfter(s, a), e, token)
  {
  }

  /** A step of another process neither gives nor changes what a token holds. */
  lemma OtherTokenUnmoved(w: World, a: Action, e: EventId, token: Token)
    requires Enabled(w, a) && token in w.store.drawn
    requires Actor(a).Some? && AgentOf(w, a.i).Owner? ==> AgentOf(w, a.i).lease.token != token
    ensures Unmoved(w.store.events, Apply(w, a).store.events, e, token)
    ensures L.Holds(Apply(w, a).store.events, e, token) ==> Round(Apply(w, a), e) == Round(w, e)
  {
    HeldRowKeepsRound(w, a, e, token);
    var t := Transaction(w, a);
    if t.Some? {
      if t.value.ClaimRow? {
        OtherClaimLeavesToken(w.store, t.value, e, token);
      } else if L.PresentsLease(t.value) {
        OtherLeaseLeavesToken(w.store, t.value, e, token);
      }
    }
  }

  /** A held row was not pruned by the step. */
  lemma HeldRowKeepsRound(w: World, a: Action, e: EventId, token: Token)
    requires Enabled(w, a)
    ensures L.Holds(Apply(w, a).store.events, e, token) ==> Round(Apply(w, a), e) == Round(w, e)
  {
    RoundsGrow(w, a, e);
    if a.Prune? {
      assert Apply(w, a).store.events == w.store.events - a.batch;
    }
  }

  lemma RoundsGrow(w: World, a: Action, e: EventId)
    requires Enabled(w, a)
    ensures Round(w, e) <= Round(Apply(w, a), e)
    ensures (a.Prune? ==> e !in a.batch) ==> Round(Apply(w, a), e) == Round(w, e)
  {
  }

  lemma HistoryGrows(w: World, a: Action)
    requires Enabled(w, a)
    ensures w.history <= Apply(w, a).history && |Apply(w, a).history| <= |w.history| + 1
    ensures forall p <- w.history :: p in Apply(w, a).history
    ensures Apply(w, a).policy == w.policy && Apply(w, a).createdAt == w.createdAt
    ensures w.store.drawn <= Apply(w, a).store.drawn
  {
  }

  lemma OtherAgentStaysOk(w: World, a: Action, agent: Agent)
    requires LS.Inv(w.store) && Enabled(w, a) && AgentOk(w, agent)
    requires agent.Owner? && Actor(a).Some? && AgentOf(w, a.i).Owner? ==> AgentOf(w, a.i).lease.token != agent.lease.token
    ensures AgentOk(Apply(w, a), agent)
  {
    HistoryGrows(w, a);
    if agent.Owner? {
      OtherTokenUnmoved(w, a, agent.wake.event, agent.lease.token);
      RoundsGrow(w, a, agent.wake.event);
    }
  }

  lemma ClaimantIsOk(w: World, a: Action)
    requires Tables(w) && Enabled(w, a) && a.Claim?
    ensures AgentOk(Apply(w, a), AgentAfter(w, a))
  {
    var agent := AgentOf(w, a.i);
    var e := agent.wake.event;
    assert e in w.store.events ==> RowOk(w, e);
    HistoryGrows(w, a);
  }

  lemma ActorStaysOk(w: World, a: Action)
    requires Tables(w) && Enabled(w, a) && Actor(a).Some? && AgentOk(w, AgentOf(w, a.i))
    ensures AgentOk(Apply(w, a), AgentAfter(w, a))
  {
    var agent, w' := AgentOf(w, a.i), Apply(w, a);
    HistoryGrows(w, a);
    if a.Claim? {
      ClaimantIsOk(w, a);
    } else if a.AcceptTime? {
      AcceptorStaysOk(w, a);
    } else if a.Commit? || a.Confirm? {
      assert EntryOf(w, a).Some? ==> EntryOf(w, a).value in w'.history;
    }
  }

  lemma AcceptorStaysOk(w: World, a: Action)
    requires Tables(w) && Enabled(w, a) && a.AcceptTime? && AgentOk(w, AgentOf(w, a.i))
    ensures AgentOk(Apply(w, a), AgentAfter(w, a))
  {
    var agent, w' := AgentOf(w, a.i), Apply(w, a);
    HistoryGrows(w, a);
    if AgentAfter(w, a).stage.Working? {
      assert EntryOf(w, a).value in w'.history;
    }
  }

  lemma StepKeepsAgents(w: World, a: Action)
    requires Tables(w) && Agents(w) && Enabled(w, a)
    ensures Agents(Apply(w, a))
  {
    var w' := Apply(w, a);
    forall i | i in w'.agents
      ensures AgentOk(w', w'.agents[i])
    {
      if Actor(a) == Some(i) {
        assert AgentOk(w, AgentOf(w, i));
        ActorStaysOk(w, a);
      } else {
        assert Actor(a).Some? && a.i !in w.agents ==> AgentOf(w, a.i).Idle?;
        OtherAgentStaysOk(w, a, w.agents[i]);
      }
    }
    TokensStayDistinct(w, a);
  }

  lemma TokensStayDistinct(w: World, a: Action)
    requires Agents(w) && Enabled(w, a)
    ensures var w' := Apply(w, a);
            forall i <- w'.agents, j <- w'.agents :: i != j && w'.agents[i].Owner? && w'.agents[j].Owner? ==>
              w'.agents[i].lease.token != w'.agents[j].lease.token
  {
    if Actor(a).Some? && AgentAfter(w, a).Owner? {
      ActorTokenIsOwnOrFresh(w, a);
      assert forall j <- w.agents :: AgentOk(w, w.agents[j]);
    }
  }

  lemma ActorTokenIsOwnOrFresh(w: World, a: Action)
    requires Enabled(w, a) && Actor(a).Some? && AgentAfter(w, a).Owner?
    ensures AgentAfter(w, a).lease.token !in w.store.drawn
            || (AgentOf(w, a.i).Owner? && AgentAfter(w, a).lease.token == AgentOf(w, a.i).lease.token)
  {
  }

  // ---- The order of events ----

  lemma EntryIsJustified(w: World, a: Action)
    requires Tables(w) && Agents(w) && Enabled(w, a) && EntryOf(w, a).Some?
    ensures Justified(w, w.history, EntryOf(w, a).value)
  {
    var agent := AgentOf(w, a.i);
    assert AgentOk(w, agent);
    if a.Commit? {
      NothingStoredWhileOpen(w, agent.wake.event);
    }
  }

  /** No response is stored in the current round of an event whose row is still open. */
  lemma NothingStoredWhileOpen(w: World, e: EventId)
    requires Tables(w)
    ensures e in w.store.events && !w.store.events[e].state.Terminal? ==> !StoredIn(w.history, e, Round(w, e))
  {
    assert forall p <- w.history :: EntryOk(w, p);
  }

  lemma {:induction false} OrderDependsOnPolicy(w: World, w': World, history: seq<Entry>)
    requires Ordered(w, history) && w'.policy == w.policy && w'.createdAt == w.createdAt
    ensures Ordered(w', history)
    decreases |history|
  {
    if history != [] {
      OrderDependsOnPolicy(w, w', history[..|history| - 1]);
      assert Justified(w', history[..|history| - 1], history[|history| - 1]);
    }
  }

  lemma StepKeepsOrder(w: World, a: Action)
    requires Inv(w) && Enabled(w, a)
    ensures Ordered(Apply(w, a), Apply(w, a).history)
  {
    var w' := Apply(w, a);
    HistoryGrows(w, a);
    OrderDependsOnPolicy(w, w', w.history);
    if EntryOf(w, a).Some? {
      EntryIsJustified(w, a);
      assert w'.history[..|w'.history| - 1] == w.history;
      assert Justified(w', w.history, EntryOf(w, a).value);
    }
  }

  lemma StepKeepsInv(w: World, a: Action)
    requires Inv(w) && Enabled(w, a)
    ensures Inv(Apply(w, a))
  {
    StepKeepsTables(w, a);
    StepKeepsAgents(w, a);
    StepKeepsOrder(w, a);
  }

  lemma {:induction false} RunKeepsInv(w: World, actions: seq<Action>)
    requires Inv(w) && Run(w, actions)
    ensures Inv(After(w, actions))
    decreases |actions|
  {
    if actions != [] {
      StepKeepsInv(w, actions[0]);
      RunKeepsInv(Apply(w, actions[0]), actions[1..]);
    }
  }
}
