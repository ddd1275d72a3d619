/** What every step of the payment protocol keeps, and what follows for whole runs. */
module PaymentSafety {
  import opened Types
  import opened Payments
  import A = Accounting
  import Budget

  // ---- The books balance in every run ----

  /** The accounting tables are sound and every period has its connection. */
  ghost predicate Books(w: World) {
    A.Sound(w.accounts, w.imported) && PeriodsOwned(w)
  }

  /** A new period that holds only imported usage. */
  lemma ImportKeepsSound(a: A.Accounts, imported: map<A.PeriodKey, nat>, key: A.PeriodKey, period: A.Period)
    requires A.Sound(a, imported) && key !in a.periods && Fits(period.usedSat)
    ensures A.Sound(a.(periods := a.periods[key := period]), imported[key := period.usedSat])
  {
    A.NothingHeldInMissingPeriod(a.attempts, key);
  }

  lemma IssueKeepsBooks(w: World, connection: ConnectionId, grant: A.Grant, importedSat: nat, now: nat)
    requires Books(w) && connection !in w.grants && importedSat <= grant.budget.limitSat && Fits(grant.budget.limitSat)
    ensures Books(DoIssue(w, connection, grant, importedSat, now))
  {
    if importedSat > 0 {
      ImportKeepsSound(w.accounts, w.imported, ImportedPeriod(grant, connection, now), A.Period(grant.budget.limitSat, importedSat, now));
    }
  }

  lemma ReserveKeepsBooks(w: World, i: nat, event: EventId, hash: PaymentHash, principal: nat, now: nat)
    requires Books(w) && event in w.orders
    ensures Books(DoReserve(w, i, event, hash, principal, now))
  {
    var order := w.orders[event];
    A.ReserveIsSound(w.accounts, w.imported, w.grants, event, hash, order.connection, order.revision, principal, now);
  }

  lemma RecordKeepsBooks(w: World, i: nat, event: EventId, hash: PaymentHash, status: Status, now: nat)
    requires Books(w)
    ensures Books(DoRecord(w, i, event, hash, status, now))
  {
    match status
    case Settled(_, amount, fee) => A.MarkSucceededIsSound(w.accounts, w.imported, w.grants, hash, amount, fee, now);
    case Failed => A.MarkFailedIsSound(w.accounts, w.imported, hash, now);
    case _ => A.MarksAreSound(w.accounts, w.imported, hash, now);
  }

  lemma MarkKeepsBooks(w: World, i: nat, event: EventId, snap: A.Attempt, now: nat)
    requires Books(w)
    ensures Books(DoMark(w, i, event, snap, now))
  {
    A.MarksAreSound(w.accounts, w.imported, snap.hash, now);
  }

  lemma ReleaseKeepsBooks(w: World, i: nat, event: EventId, hash: PaymentHash, now: nat)
    requires Books(w)
    ensures Books(DoRelease(w, i, event, hash, now))
  {
    A.ReleaseIsSound(w.accounts, w.imported, hash, now);
  }

  /** A step that leaves accounting alone. */
  lemma SameTablesKeepBooks(w: World, w': World)
    requires Books(w) && w'.accounts == w.accounts && w'.imported == w.imported && w.grants.Keys <= w'.grants.Keys
    ensures Books(w')
  {
  }

  lemma StepKeepsBooks(w: World, a: Action)
    requires Books(w) && Enabled(w, a)
    ensures Books(Apply(w, a))
  {
    match a
    case ReserveFor(i, event, hash, principal, now) => ReserveKeepsBooks(w, i, event, hash, principal, now);
    case Mark(i, now) => MarkKeepsBooks(w, i, AgentOf(w, i).event, AgentOf(w, i).snap, now);
    case RecordUncertain(i, now) => RecordKeepsBooks(w, i, AgentOf(w, i).event, AgentOf(w, i).hash, Unknown, now);
    case Record(i, now) => RecordKeepsBooks(w, i, AgentOf(w, i).event, AgentOf(w, i).hash, AgentOf(w, i).status, now);
    case Release(i, now) => ReleaseKeepsBooks(w, i, AgentOf(w, i).event, AgentOf(w, i).hash, now);
    case Issue(connection, grant, importedSat, now) => IssueKeepsBooks(w, connection, grant, importedSat, now);
    case _ => OtherStepsKeepBooks(w, a);
  }

  lemma OtherStepsKeepBooks(w: World, a: Action)
    requires Books(w) && Enabled(w, a)
    requires !a.ReserveFor? && !a.Mark? && !a.Record? && !a.RecordUncertain? && !a.Release? && !a.Issue?
    ensures Books(Apply(w, a))
  {
    OtherStepsKeepTables(w, a);
    SameTablesKeepBooks(w, Apply(w, a));
  }

  lemma OtherStepsKeepTables(w: World, a: Action)
    requires Enabled(w, a)
    requires !a.ReserveFor? && !a.Mark? && !a.Record? && !a.RecordUncertain? && !a.Release? && !a.Issue?
    ensures Apply(w, a).accounts == w.accounts && Apply(w, a).imported == w.imported
    ensures w.grants.Keys <= Apply(w, a).grants.Keys
  {
  }

  /**
   Conservation over every run, with any interleaving, crash and wallet behaviour: the counter of
   every budget period is its imported usage plus exactly what its attempts debit.
   */
  lemma {:induction false} BudgetIsConserved(w: World, actions: seq<Action>)
    requires Books(w) && Run(w, actions)
    ensures var end := After(w, actions);
            && A.Valid(end.accounts)
            && forall key <- end.accounts.periods ::
                 end.accounts.periods[key].usedSat == A.Imported(end.imported, key) + A.Held(end.accounts.attempts, key)
    decreases |actions|
  {
    if actions != [] {
      StepKeepsBooks(w, actions[0]);
      BudgetIsConserved(Apply(w, actions[0]), actions[1..]);
    }
  }

  // ---- Guarded runs ----

  /** The step arms a process by the marker it finds or writes under its hash. */
  predicate ArmsByMarker(w: World, a: Action) {
    && a.Mark? && AgentOf(w, a.i).Cleared? && !AgentOf(w, a.i).snap.WasInitiated()
    && A.MarkInitiated(w.accounts, AgentOf(w, a.i).snap.hash, a.now).1.Ok?
  }

  /** A marker that arms a process is on the row of that process's own event. */
  predicate MarksOwnRow(w: World, a: Action) {
    ArmsByMarker(w, a) ==>
      && AgentOf(w, a.i).snap.hash in w.accounts.byHash
      && w.accounts.byHash[AgentOf(w, a.i).snap.hash] == AgentOf(w, a.i).event
  }

  /** A call that brings a dead key back. The wallet's documentation rules this out. */
  predicate Revives(w: World, a: Action) {
    && a.Start? && AgentOf(w, a.i).Armed? && AgentOf(w, a.i).event in w.wallet
    && w.wallet[AgentOf(w, a.i).event].phase.Dead? && !a.phase.Dead?
  }

  predicate ReportsFailure(agent: Agent, event: EventId) {
    agent.Reported? && agent.event == event && agent.status.Failed?
  }

  /** Nobody has refunded, or is about to refund, the attempt of a revived key. */
  ghost predicate RevivesSafely(w: World, a: Action) {
    Revives(w, a) ==>
      var e := AgentOf(w, a.i).event;
      && e in w.accounts.attempts && !w.accounts.attempts[e].state.Failed?
      && forall j <- w.agents :: !ReportsFailure(w.agents[j], e)
  }

  ghost predicate Guarded(w: World, a: Action) {
    MarksOwnRow(w, a) && RevivesSafely(w, a)
  }

  ghost predicate GuardedRun(w: World, actions: seq<Action>)
    decreases |actions|
  {
    actions == []
    || (Enabled(w, actions[0]) && Guarded(w, actions[0]) && GuardedRun(Apply(w, actions[0]), actions[1..]))
  }

  lemma {:induction false} GuardedRunIsRun(w: World, actions: seq<Action>)
    requires GuardedRun(w, actions)
    ensures Run(w, actions)
    decreases |actions|
  {
    if actions != [] {
      GuardedRunIsRun(Apply(w, actions[0]), actions[1..]);
    }
  }

  // ---- The invariant ----

  ghost predicate AttemptOk(w: World, e: EventId)
    requires e in w.accounts.attempts
  {
    var t := w.accounts.attempts[e];
    if t.legacyAmbiguous then e !in w.wallet && t.WasInitiated()
    else FeeOk(w, e, t.feeReserveSat) && (!t.state.Reserved? ==> e in w.wallet) && (e in w.wallet ==> t.WasInitiated())
  }

  /** A called key is covered by its own marked attempt, which fails only once the key is dead. */
  ghost predicate KeyOk(w: World, k: EventId)
    requires k in w.wallet
  {
    && k in w.accounts.attempts
    && k in w.orders
    && var t := w.accounts.attempts[k];
    && !t.legacyAmbiguous
    && t.WasInitiated()
    && t.hash == w.wallet[k].hash
    && w.wallet[k].request == Request(w, k, t.feeReserveSat)
    && (!w.wallet[k].phase.Dead? ==> !t.state.Failed?)
  }

  /** A snapshot still agrees with its row on everything a payment call uses. */
  ghost predicate SnapOk(w: World, e: EventId, snap: A.Attempt) {
    && snap.event == e
    && e in w.accounts.attempts
    && var t := w.accounts.attempts[e];
    && t.hash == snap.hash
    && t.feeReserveSat == snap.feeReserveSat
    && t.legacyAmbiguous == snap.legacyAmbiguous
    && (snap.WasInitiated() ==> t.WasInitiated())
    && (!snap.state.Reserved? ==> snap.WasInitiated())
    && (!snap.state.Reserved? && !snap.legacyAmbiguous ==> e in w.wallet)
  }

  /** A marked snapshot stands for its row; an unmarked one may outlive it. */
  ghost predicate HeldOk(w: World, e: EventId, snap: A.Attempt) {
    && snap.event == e
    && (snap.WasInitiated() ==> SnapOk(w, e, snap))
    && (!snap.WasInitiated() ==>
          && snap.state.Reserved? && !snap.legacyAmbiguous && FeeOk(w, e, snap.feeReserveSat)
          && (e in w.accounts.attempts ==> !w.accounts.attempts[e].legacyAmbiguous))
  }

  ghost predicate AgentOk(w: World, agent: Agent) {
    match agent
    case Idle => true
    case Loaded(e, snap) => HeldOk(w, e, snap)
    case Checked(e, snap) => HeldOk(w, e, snap) && !snap.legacyAmbiguous && !snap.state.Failed?
    case Cleared(e, snap) =>
      HeldOk(w, e, snap) && !snap.legacyAmbiguous && (snap.state.Reserved? || snap.state.Pending?)
    case Armed(e, snap) =>
      SnapOk(w, e, snap) && !snap.legacyAmbiguous && (snap.state.Reserved? || snap.state.Pending?)
      && w.accounts.attempts[e].WasInitiated()
    case Reported(e, hash, status) =>
      e in w.wallet && w.wallet[e].hash == hash && (status.Failed? ==> w.wallet[e].phase.Dead?)
    case Uncertain(e, hash) => e in w.wallet && w.wallet[e].hash == hash
    case Refused(_, _) => true
    case Reviewing(snap) =>
      && !snap.legacyAmbiguous
      && (!snap.state.Reserved? ==> snap.WasInitiated())
      && (snap.WasInitiated() ==> SnapOk(w, snap.event, snap))
    case Answering(e, answer) =>
      answer.PaidAnswer? ==> e in w.wallet && e in w.accounts.attempts && w.accounts.attempts[e].state.Succeeded?
  }

  ghost predicate Tables(w: World) {
    && (forall e <- w.accounts.attempts :: AttemptOk(w, e))
    && (forall k <- w.wallet :: KeyOk(w, k))
    && (forall c <- w.calls :: c.key in w.wallet && w.wallet[c.key].request == c)
  }

  ghost predicate Agents(w: World) {
    forall i <- w.agents :: AgentOk(w, w.agents[i])
  }

  ghost predicate Inv(w: World) {
    Tables(w) && Agents(w)
  }

  /** Policies of known connections and the requests never change. */
  ghost predicate SamePolicies(w: World, w': World) {
    && w'.orders == w.orders
    && forall c <- w.grants :: c in w'.grants && w'.grants[c].budget == w.grants[c].budget
  }

  /** The tables only move forward, except that rows in `gone` were deleted and keys in `revived` came back. */
  ghost predicate Forward(w: World, w': World, gone: set<EventId>, revived: set<EventId>) {
    && SamePolicies(w, w')
    && (forall e <- w.accounts.attempts :: e !in gone ==>
          && e in w'.accounts.attempts
          && var t, t' := w.accounts.attempts[e], w'.accounts.attempts[e];
          && t'.hash == t.hash
          && t'.feeReserveSat == t.feeReserveSat
          && t'.legacyAmbiguous == t.legacyAmbiguous
          && (t.WasInitiated() ==> t'.WasInitiated())
          && (t.state.Succeeded? ==> t'.state.Succeeded?))
    && (forall e <- w'.accounts.attempts :: e !in w.accounts.attempts ==> !w'.accounts.attempts[e].legacyAmbiguous)
    && (forall e <- gone :: e !in w'.accounts.attempts)
    && (forall e <- gone :: e in w.accounts.attempts ==> !w.accounts.attempts[e].WasInitiated())
    && (forall k <- w.wallet ::
          && k in w'.wallet
          && w'.wallet[k].hash == w.wallet[k].hash
          && (w.wallet[k].phase.Dead? && k !in revived ==> w'.wallet[k].phase.Dead?))
  }

  lemma ForwardKeepsAgent(w: World, w': World, gone: set<EventId>, revived: set<EventId>, agent: Agent)
    requires Forward(w, w', gone, revived) && AgentOk(w, agent)
    requires forall e <- w.wallet :: e in w.accounts.attempts && w.accounts.attempts[e].WasInitiated()
    requires forall e <- revived :: !ReportsFailure(agent, e)
    ensures AgentOk(w', agent)
  {
  }

  /** Lifts a table step to the whole world once the acting process is accounted for. */
  lemma StepKeepsAgents(w: World, w': World, gone: set<EventId>, revived: set<EventId>, actor: set<nat>)
    requires Inv(w) && Forward(w, w', gone, revived)
    requires forall i <- w'.agents :: i in actor || (i in w.agents && w'.agents[i] == w.agents[i])
    requires forall i <- actor :: i in w'.agents ==> AgentOk(w', w'.agents[i])
    requires forall i <- w.agents :: i !in actor ==> forall e <- revived :: !ReportsFailure(w.agents[i], e)
    ensures Agents(w')
  {
    forall i | i in w'.agents && i !in actor
      ensures AgentOk(w', w'.agents[i])
    {
      assert forall e <- w.wallet :: KeyOk(w, e);
      ForwardKeepsAgent(w, w', gone, revived, w.agents[i]);
    }
  }

  // ---- Each step keeps the invariant ----

  /** Steps that change no payment table. */
  lemma MoveKeepsInv(w: World, w': World, i: nat, agent: Agent)
    requires Inv(w) && AgentOk(w, agent)
    requires w' == Goto(w, i, agent)
    ensures Inv(w')
  {
    SameTablesForward(w, w');
    assert AgentOk(w', agent) by {
      assert forall e <- w.wallet :: KeyOk(w, e);
      ForwardKeepsAgent(w, w', {}, {}, agent);
    }
    StepKeepsAgents(w, w', {}, {}, {i});
  }

  lemma SameTablesForward(w: World, w': World)
    requires Tables(w)
    requires w'.accounts.attempts == w.accounts.attempts && SamePolicies(w, w') && w'.wallet == w.wallet && w'.calls == w.calls
    ensures Tables(w') && Forward(w, w', {}, {})
  {
    forall e | e in w'.accounts.attempts
      ensures AttemptOk(w', e)
    {
      assert AttemptOk(w, e);
    }
    forall k | k in w'.wallet
      ensures KeyOk(w', k)
    {
      assert KeyOk(w, k);
    }
  }

  lemma GrantsKeepInv(w: World, w': World)
    requires Inv(w) && SamePolicies(w, w')
    requires w'.accounts.attempts == w.accounts.attempts
    requires w'.wallet == w.wallet && w'.agents == w.agents && w'.calls == w.calls
    ensures Inv(w')
  {
    SameTablesForward(w, w');
    StepKeepsAgents(w, w', {}, {}, {});
  }

  /** A key that only moves on. */
  lemma WalletStepKeepsTables(w: World, w': World)
    requires Tables(w) && w'.accounts == w.accounts && w'.orders == w.orders && w'.grants == w.grants && w'.calls == w.calls
    requires w'.wallet.Keys == w.wallet.Keys
    requires forall k <- w.wallet ::
               && w'.wallet[k].request == w.wallet[k].request && w'.wallet[k].hash == w.wallet[k].hash
               && (w.wallet[k].phase.Dead? ==> w'.wallet[k].phase.Dead?)
    ensures Tables(w') && Forward(w, w', {}, {})
  {
    forall k | k in w'.wallet
      ensures KeyOk(w', k)
    {
      assert KeyOk(w, k);
    }
    forall e | e in w'.accounts.attempts
      ensures AttemptOk(w', e)
    {
      assert AttemptOk(w, e);
    }
  }

  lemma ProgressKeepsInv(w: World, key: EventId, phase: Phase)
    requires Inv(w) && key in w.wallet && Advances(Some(w.wallet[key].phase), phase)
    ensures Inv(DoProgress(w, key, phase))
  {
    var w' := DoProgress(w, key, phase);
    WalletStepKeepsTables(w, w');
    StepKeepsAgents(w, w', {}, {}, {});
  }

  lemma StatusKeepsInv(w: World, i: nat, snap: A.Attempt, reply: Result<Status, HostErrorKind>, agent: Agent)
    requires Inv(w) && StatusContract(w.wallet, snap.hash, reply)
    requires agent.Idle? || agent.Refused?
             || (agent.Checked? && AgentOk(w, agent))
             || (agent.Reported? && agent == Reported(snap.event, snap.hash, agent.status) && reply == Ok(agent.status)
                 && SnapOk(w, snap.event, snap) && snap.MayDiscloseSettlement())
    ensures Inv(DoStatus(w, i, snap.hash, reply, agent))
  {
    var w' := DoStatus(w, i, snap.hash, reply, agent);
    WalletStepKeepsTables(w, w');
    assert AgentOk(w', agent) by {
      if agent.Checked? {
        assert forall k <- w.wallet :: KeyOk(w, k);
        ForwardKeepsAgent(w, w', {}, {}, agent);
      } else if agent.Reported? {
        assert KeyOk(w, snap.event);
      }
    }
    StepKeepsAgents(w, w', {}, {}, {i});
  }

  lemma ReserveKeepsInv(w: World, i: nat, event: EventId, hash: PaymentHash, principal: nat, now: nat)
    requires Inv(w) && A.Valid(w.accounts) && event in w.orders
    ensures Inv(DoReserve(w, i, event, hash, principal, now))
  {
    var w', order := DoReserve(w, i, event, hash, principal, now), w.orders[event];
    A.ReserveWrites(w.accounts, w.grants, event, hash, order.connection, order.revision, principal, now);
    var r := A.Reserve(w.accounts, w.grants, event, hash, order.connection, order.revision, principal, now).1;
    if r.Ok? && r.value.NewReservation? {
      NewRowKeepsInv(w, w', i, event, r.value.attempt);
    } else {
      if r.Ok? && r.value.Existing? {
        assert r.value.attempt == w.accounts.attempts[event];
        SnapshotIsCurrent(w, event);
      }
      MoveKeepsInv(w, w', i, w'.agents[i]);
    }
  }

  /** A snapshot taken now agrees with its row. */
  lemma SnapshotIsCurrent(w: World, e: EventId)
    requires Tables(w) && A.Valid(w.accounts) && e in w.accounts.attempts
    ensures SnapOk(w, e, w.accounts.attempts[e]) && HeldOk(w, e, w.accounts.attempts[e])
  {
    assert AttemptOk(w, e);
  }

  lemma NewRowKeepsTables(w: World, w': World, e: EventId, t: A.Attempt)
    requires Tables(w) && FeeOk(w, e, t.feeReserveSat) && e !in w.accounts.attempts
    requires t.event == e && t.state.Reserved? && !t.WasInitiated() && !t.legacyAmbiguous
    requires w'.accounts.attempts == w.accounts.attempts[e := t]
    requires w'.wallet == w.wallet && w'.orders == w.orders && w'.grants == w.grants && w'.calls == w.calls
    ensures Tables(w') && Forward(w, w', {}, {}) && HeldOk(w', e, t)
  {
    forall k | k in w'.wallet
      ensures KeyOk(w', k)
    {
      assert KeyOk(w, k);
    }
    assert e in w.wallet ==> KeyOk(w, e);
    forall d | d in w'.accounts.attempts
      ensures AttemptOk(w', d)
    {
      assert d != e ==> AttemptOk(w, d);
    }
  }

  lemma NewRowKeepsInv(w: World, w': World, i: nat, e: EventId, t: A.Attempt)
    requires Inv(w) && FeeOk(w, e, t.feeReserveSat) && e !in w.accounts.attempts
    requires t.event == e && t.state.Reserved? && !t.WasInitiated() && !t.legacyAmbiguous
    requires w'.accounts.attempts == w.accounts.attempts[e := t]
    requires w'.wallet == w.wallet && w'.orders == w.orders && w'.grants == w.grants && w'.calls == w.calls
    requires w'.agents == w.agents[i := Loaded(e, t)]
    ensures Inv(w')
  {
    NewRowKeepsTables(w, w', e, t);
    StepKeepsAgents(w, w', {}, {}, {i});
  }

  /** One row is replaced by a later version of itself, which is debited unless its key is dead. */
  ghost predicate RowStep(w: World, w': World, e: EventId, t: A.Attempt) {
    && e in w.accounts.attempts
    && w'.accounts.attempts == w.accounts.attempts[e := t]
    && w'.wallet == w.wallet && w'.orders == w.orders && w'.grants == w.grants && w'.calls == w.calls
    && !w.accounts.attempts[e].legacyAmbiguous && A.Later(w.accounts.attempts[e], t)
    && (!t.state.Reserved? ==> e in w.wallet)
    && (t.state.Failed? ==> e in w.wallet && w.wallet[e].phase.Dead?)
  }

  lemma RowStepKeepsTables(w: World, w': World, e: EventId, t: A.Attempt)
    requires Tables(w) && RowStep(w, w', e, t)
    ensures Tables(w')
  {
    assert AttemptOk(w, e);
    forall d | d in w'.accounts.attempts
      ensures AttemptOk(w', d)
    {
      assert d != e ==> AttemptOk(w, d);
    }
    forall k | k in w'.wallet
      ensures KeyOk(w', k)
    {
      assert KeyOk(w, k);
    }
  }

  lemma RowStepIsForward(w: World, w': World, e: EventId, t: A.Attempt)
    requires RowStep(w, w', e, t)
    ensures Forward(w, w', {}, {})
  {
  }

  lemma RowStepKeepsInv(w: World, w': World, i: nat, e: EventId, t: A.Attempt)
    requires Inv(w) && RowStep(w, w', e, t)
    requires i in w'.agents && w'.agents == w.agents[i := w'.agents[i]] && AgentOk(w', w'.agents[i])
    ensures Inv(w')
  {
    RowStepKeepsTables(w, w', e, t);
    RowStepIsForward(w, w', e, t);
    StepKeepsAgents(w, w', {}, {}, {i});
  }

  /** The row an armed process was marked on agrees with its snapshot on everything a call uses. */
  lemma OwnMarkedRowFits(w: World, event: EventId, snap: A.Attempt)
    requires Tables(w) && A.Valid(w.accounts) && HeldOk(w, event, snap) && !snap.WasInitiated()
    requires snap.hash in w.accounts.byHash && w.accounts.byHash[snap.hash] == event
    ensures SnapOk(w, event, snap) && A.Lookup(w.accounts, snap.hash) == Some(w.accounts.attempts[event])
  {
    assert AttemptOk(w, event);
  }

  lemma MarkKeepsInv(w: World, i: nat, event: EventId, snap: A.Attempt, now: nat)
    requires Inv(w) && A.Valid(w.accounts) && AgentOk(w, Cleared(event, snap))
    requires !snap.WasInitiated() && A.MarkInitiated(w.accounts, snap.hash, now).1.Ok? ==>
               snap.hash in w.accounts.byHash && w.accounts.byHash[snap.hash] == event
    ensures Inv(DoMark(w, i, event, snap, now))
  {
    var w' := DoMark(w, i, event, snap, now);
    if !snap.WasInitiated() && A.MarkInitiated(w.accounts, snap.hash, now).1.Ok? {
      OwnMarkedRowFits(w, event, snap);
      assert AttemptOk(w, event);
      var t := w.accounts.attempts[event];
      if t.WasInitiated() {
        MoveKeepsInv(w, w', i, w'.agents[i]);
      } else {
        RowStepKeepsInv(w, w', i, event, t.(initiatedAt := Some(now), updatedAt := now));
      }
    } else {
      MoveKeepsInv(w, w', i, w'.agents[i]);
    }
  }

  lemma StartKeepsTables(w: World, i: nat, event: EventId, snap: A.Attempt, reply: Result<Status, HostErrorKind>, phase: Phase)
    requires Tables(w) && AgentOk(w, Armed(event, snap)) && event in w.orders
    requires StartContract(PhaseOf(w, event), reply, phase)
    requires event in w.wallet && w.wallet[event].phase.Dead? && !phase.Dead? ==> !w.accounts.attempts[event].state.Failed?
    ensures Tables(DoStart(w, i, event, snap, reply, phase))
    ensures Forward(w, DoStart(w, i, event, snap, reply, phase), {}, {event})
    ensures event !in w.wallet || !w.wallet[event].phase.Dead? || phase.Dead?
            ==> Forward(w, DoStart(w, i, event, snap, reply, phase), {}, {})
  {
    var w' := DoStart(w, i, event, snap, reply, phase);
    assert AttemptOk(w, event);
    assert event in w.wallet ==> KeyOk(w, event);
    forall d | d in w'.accounts.attempts
      ensures AttemptOk(w', d)
    {
      assert AttemptOk(w, d);
    }
    forall k | k in w'.wallet
      ensures KeyOk(w', k)
    {
      assert k != event ==> KeyOk(w, k);
    }
  }

  lemma CallerStaysOk(w: World, i: nat, event: EventId, snap: A.Attempt, reply: Result<Status, HostErrorKind>, phase: Phase)
    requires Tables(w) && AgentOk(w, Armed(event, snap)) && event in w.orders
    requires StartContract(PhaseOf(w, event), reply, phase)
    ensures AgentOk(DoStart(w, i, event, snap, reply, phase), AfterStart(event, snap.hash, reply))
  {
    assert event in w.wallet ==> KeyOk(w, event);
  }

  lemma StartKeepsInv(w: World, i: nat, event: EventId, snap: A.Attempt, reply: Result<Status, HostErrorKind>, phase: Phase)
    requires Inv(w) && AgentOk(w, Armed(event, snap)) && event in w.orders
    requires StartContract(PhaseOf(w, event), reply, phase)
    requires event in w.wallet && w.wallet[event].phase.Dead? && !phase.Dead? ==>
               && !w.accounts.attempts[event].state.Failed?
               && forall j <- w.agents :: !ReportsFailure(w.agents[j], event)
    ensures Inv(DoStart(w, i, event, snap, reply, phase))
  {
    var w' := DoStart(w, i, event, snap, reply, phase);
    StartKeepsTables(w, i, event, snap, reply, phase);
    CallerStaysOk(w, i, event, snap, reply, phase);
    var revived := if event in w.wallet && w.wallet[event].phase.Dead? && !phase.Dead? then {event} else {};
    StepKeepsAgents(w, w', {}, revived, {i});
  }

  lemma RecordKeepsInv(w: World, i: nat, event: EventId, hash: PaymentHash, status: Status, now: nat)
    requires Inv(w) && A.Valid(w.accounts) && AgentOk(w, Reported(event, hash, status))
    ensures Inv(DoRecord(w, i, event, hash, status, now))
  {
    var w' := DoRecord(w, i, event, hash, status, now);
    assert KeyOk(w, event);
    A.RecordsMoveForward(w.accounts, w.grants, event, if status.Settled? then status.amountMsat else 0,
                         if status.Settled? then status.feeMsat else 0, now);
    assert AttemptOk(w, event);
    RowStepKeepsInv(w, w', i, event, w'.accounts.attempts[event]);
  }

  /** Deleting a row without a marker. */
  lemma DeletionKeepsTables(w: World, w': World, e: EventId)
    requires Tables(w) && e in w.accounts.attempts && !w.accounts.attempts[e].WasInitiated()
    requires w'.accounts.attempts == w.accounts.attempts - {e}
    requires w'.wallet == w.wallet && w'.orders == w.orders && w'.grants == w.grants && w'.calls == w.calls
    ensures Tables(w') && Forward(w, w', {e}, {})
  {
    forall k | k in w'.wallet
      ensures KeyOk(w', k)
    {
      assert KeyOk(w, k);
    }
    forall d | d in w'.accounts.attempts
      ensures AttemptOk(w', d)
    {
      assert AttemptOk(w, d);
    }
  }

  /** A release deletes one row without a marker, or changes nothing. */
  lemma ReleaseDeletes(a: A.Accounts, hash: PaymentHash, now: nat)
    requires A.Valid(a)
    ensures var next := A.ReleaseUninitiated(a, hash, now).0;
            || next == a
            || (&& hash in a.byHash && a.byHash[hash] in a.attempts && !a.attempts[a.byHash[hash]].WasInitiated()
                && next.attempts == a.attempts - {a.byHash[hash]})
  {
  }

  lemma ReleaseKeepsInv(w: World, i: nat, event: EventId, hash: PaymentHash, now: nat)
    requires Inv(w) && A.Valid(w.accounts)
    ensures Inv(DoRelease(w, i, event, hash, now))
  {
    var w' := DoRelease(w, i, event, hash, now);
    ReleaseDeletes(w.accounts, hash, now);
    if w'.accounts == w.accounts {
      MoveKeepsInv(w, w', i, w'.agents[i]);
    } else {
      DeletionKeepsTables(w, w', w.accounts.byHash[hash]);
      StepKeepsAgents(w, w', {w.accounts.byHash[hash]}, {}, {i});
    }
  }

  lemma LoadKeepsInv(w: World, i: nat, event: EventId)
    requires Inv(w) && A.Valid(w.accounts) && event in w.orders
    ensures Inv(DoLoad(w, i, event))
  {
    if event in w.accounts.attempts {
      SnapshotIsCurrent(w, event);
      MoveKeepsInv(w, DoLoad(w, i, event), i, DoLoad(w, i, event).agents[i]);
    }
  }

  lemma ReviewKeepsInv(w: World, i: nat, event: EventId)
    requires Inv(w) && A.Valid(w.accounts) && Unresolved(w, event)
    ensures Inv(Goto(w, i, Reviewing(w.accounts.attempts[event])))
  {
    SnapshotIsCurrent(w, event);
    MoveKeepsInv(w, Goto(w, i, Reviewing(w.accounts.attempts[event])), i, Reviewing(w.accounts.attempts[event]));
  }

  lemma LocalStepKeepsInv(w: World, a: Action)
    requires Inv(w) && Enabled(w, a)
    requires a.Settle? || a.ResumeBlind? || a.Authorize? || a.SkipReview? || a.Crash?
    ensures Inv(Apply(w, a))
  {
    var w' := Apply(w, a);
    assert AgentOk(w, AgentOf(w, a.i));
    MoveKeepsInv(w, w', a.i, w'.agents[a.i]);
  }

  lemma StatusStepKeepsInv(w: World, a: Action)
    requires Inv(w) && Enabled(w, a) && (a.Inquire? || a.ReviewStatus?)
    ensures Inv(Apply(w, a))
  {
    var agent := AgentOf(w, a.i);
    assert AgentOk(w, agent);
    StatusKeepsInv(w, a.i, agent.snap, a.reply,
                   if a.Inquire? then AfterInquiry(agent.event, agent.snap, a.reply) else AfterReview(agent.snap, a.reply));
  }

  lemma StepKeepsInv(w: World, a: Action)
    requires Inv(w) && A.Valid(w.accounts)
    requires Enabled(w, a) && Guarded(w, a)
    ensures Inv(Apply(w, a))
  {
    match a
    case ReserveFor(i, event, hash, principal, now) => ReserveKeepsInv(w, i, event, hash, principal, now);
    case Inquire(_, _) => StatusStepKeepsInv(w, a);
    case ReviewStatus(_, _) => StatusStepKeepsInv(w, a);
    case Progress(key, phase) => ProgressKeepsInv(w, key, phase);
    case Issue(connection, grant, importedSat, now) => IssueKeepsInv(w, connection, grant, importedSat, now);
    case Revoke(connection) => GrantsKeepInv(w, DoRevoke(w, connection));
    case Load(i, event) => LoadKeepsInv(w, i, event);
    case Review(i, event) => ReviewKeepsInv(w, i, event);
    case _ =>
      if a.Mark? || a.Start? || a.Record? || a.RecordUncertain? || a.Release? {
        WritingStepKeepsInv(w, a);
      } else {
        LocalStepKeepsInv(w, a);
      }
  }

  lemma IssueKeepsInv(w: World, connection: ConnectionId, grant: A.Grant, importedSat: nat, now: nat)
    requires Inv(w) && connection !in w.grants
    ensures Inv(DoIssue(w, connection, grant, importedSat, now))
  {
    GrantsKeepInv(w, DoIssue(w, connection, grant, importedSat, now));
  }

  lemma WritingStepKeepsInv(w: World, a: Action)
    requires Inv(w) && A.Valid(w.accounts) && Enabled(w, a) && Guarded(w, a)
    requires a.Mark? || a.Start? || a.Record? || a.RecordUncertain? || a.Release?
    ensures Inv(Apply(w, a))
  {
    var agent := AgentOf(w, a.i);
    assert AgentOk(w, agent);
    match a
    case Mark(i, now) => MarkKeepsInv(w, i, agent.event, agent.snap, now);
    case Start(i, reply, phase) => StartKeepsInv(w, i, agent.event, agent.snap, reply, phase);
    case Record(i, now) => RecordKeepsInv(w, i, agent.event, agent.hash, agent.status, now);
    case RecordUncertain(i, now) => RecordKeepsInv(w, i, agent.event, agent.hash, Unknown, now);
    case Release(i, now) => ReleaseKeepsInv(w, i, agent.event, agent.hash, now);
  }

  lemma {:induction false} GuardedRunKeepsInv(w: World, actions: seq<Action>)
    requires Inv(w) && Books(w)
    requires GuardedRun(w, actions)
    ensures Run(w, actions)
    ensures Inv(After(w, actions))
    ensures Books(After(w, actions))
    decreases |actions|
  {
    GuardedRunIsRun(w, actions);
    if actions != [] {
      StepKeepsInv(w, actions[0]);
      StepKeepsBooks(w, actions[0]);
      GuardedRunKeepsInv(Apply(w, actions[0]), actions[1..]);
    }
  }

  // ---- Results over whole runs ----

  lemma InitIsInv(w: World)
    requires Init(w)
    ensures Inv(w) && Books(w)
  {
  }

  /** The event's own attempt is durably marked and still debited inside its period's counter. */
  ghost predicate Covered(w: World, k: EventId) {
    && k in w.accounts.attempts
    && var t := w.accounts.attempts[k];
    && t.WasInitiated() && !t.state.Failed?
    && A.KeyOf(t) in w.accounts.periods
    && A.Debit(t) <= w.accounts.periods[A.KeyOf(t)].usedSat
  }

  /** The wallet may still settle, or has settled, a payment under the key. */
  predicate Live(w: World, k: EventId) {
    k in w.wallet && !w.wallet[k].phase.Dead?
  }

  lemma InvCovers(w: World, k: EventId)
    requires Tables(w) && Books(w)
    ensures Live(w, k) ==> Covered(w, k)
  {
    if k in w.wallet {
      assert KeyOk(w, k);
      A.DebitIsCovered(w.accounts, w.imported, k);
    }
  }

  /**
   While the wallet may still settle, or has settled, a payment under an event's key, that event's own
   attempt is durably marked and still debited: in every run in which each marker that arms a process is
   on that process's own row. For a wallet that keeps its documentation, nothing else is asked.
   */
  lemma LivePaymentsStayDebited(start: World, actions: seq<Action>, k: EventId)
    requires Init(start) && GuardedRun(start, actions)
    ensures Run(start, actions)
    ensures Live(After(start, actions), k) ==> Covered(After(start, actions), k)
  {
    InitIsInv(start);
    GuardedRunKeepsInv(start, actions);
    InvCovers(After(start, actions), k);
  }

  lemma RefundStepIsCertified(w: World, a: Action, e: EventId)
    requires Inv(w) && Books(w) && Enabled(w, a) && Guarded(w, a)
    requires e in w.accounts.attempts && !w.accounts.attempts[e].state.Failed?
    ensures var w' := Apply(w, a);
            && (e !in w'.accounts.attempts ==> e !in w.wallet)
            && (e in w'.accounts.attempts && w'.accounts.attempts[e].state.Failed? && !w'.accounts.attempts[e].legacyAmbiguous
                ==> e in w'.wallet && w'.wallet[e].phase.Dead?)
  {
    StepKeepsInv(w, a);
    KeysStay(w, a);
    CertifiedByInvariant(Apply(w, a), e);
  }

  /**
   In every guarded run each step gives a debit back only when the wallet certified that the key is dead,
   or when the wallet was never called for it.
   */
  lemma RefundsAreCertified(start: World, actions: seq<Action>, a: Action, e: EventId)
    requires Init(start) && GuardedRun(start, actions)
    ensures Run(start, actions)
    ensures var w := After(start, actions);
            Enabled(w, a) && Guarded(w, a) && e in w.accounts.attempts && !w.accounts.attempts[e].state.Failed? ==>
              var w' := Apply(w, a);
              && (e !in w'.accounts.attempts ==> e !in w.wallet)
              && (e in w'.accounts.attempts && w'.accounts.attempts[e].state.Failed? && !w'.accounts.attempts[e].legacyAmbiguous
                  ==> e in w'.wallet && w'.wallet[e].phase.Dead?)
  {
    InitIsInv(start);
    GuardedRunKeepsInv(start, actions);
    var w := After(start, actions);
    if Enabled(w, a) && Guarded(w, a) && e in w.accounts.attempts && !w.accounts.attempts[e].state.Failed? {
      RefundStepIsCertified(w, a, e);
    }
  }

  lemma CertifiedByInvariant(w: World, e: EventId)
    requires Tables(w)
    ensures e in w.wallet ==> e in w.accounts.attempts
    ensures e in w.accounts.attempts && w.accounts.attempts[e].state.Failed? && !w.accounts.attempts[e].legacyAmbiguous
            ==> e in w.wallet && w.wallet[e].phase.Dead?
  {
    assert e in w.accounts.attempts ==> AttemptOk(w, e);
    assert e in w.wallet ==> KeyOk(w, e);
  }

  /** The wallet never forgets a key it was called with. */
  lemma KeysStay(w: World, a: Action)
    requires Enabled(w, a)
    ensures w.wallet.Keys <= Apply(w, a).wallet.Keys
  {
  }

  /** A step moves no process but the acting one, and a quoted order never changes. */
  lemma OnlyActorMoves(w: World, a: Action)
    requires Enabled(w, a)
    ensures Apply(w, a).orders == w.orders
    ensures Actor(a).None? ==> Apply(w, a).agents == w.agents
    ensures Actor(a).Some? ==> forall j :: j != Actor(a).value ==>
              (j in Apply(w, a).agents <==> j in w.agents) && (j in w.agents ==> Apply(w, a).agents[j] == w.agents[j])
  {
    OrdersStay(w, a);
    if Actor(a).Some? {
      OwnStepMovesOnlyActor(w, a);
    }
  }

  lemma OrdersStay(w: World, a: Action)
    requires Enabled(w, a)
    ensures Apply(w, a).orders == w.orders
  {
    if a.ReserveFor? || a.Mark? || a.Record? || a.RecordUncertain? || a.Release? {
      TableStepsKeepOrders(w, a);
    }
  }

  lemma TableStepsKeepOrders(w: World, a: Action)
    requires Enabled(w, a) && (a.ReserveFor? || a.Mark? || a.Record? || a.RecordUncertain? || a.Release?)
    ensures Apply(w, a).orders == w.orders
  {
  }

  lemma OwnStepMovesOnlyActor(w: World, a: Action)
    requires Enabled(w, a) && Actor(a).Some?
    ensures var i := Actor(a).value;
            Apply(w, a).agents == w.agents || (i in Apply(w, a).agents && Apply(w, a).agents == w.agents[i := Apply(w, a).agents[i]])
  {
    if a.ReserveFor? || a.Mark? || a.Record? || a.RecordUncertain? || a.Release? {
      TableStepMovesOnlyActor(w, a);
    }
  }

  lemma TableStepMovesOnlyActor(w: World, a: Action)
    requires Enabled(w, a) && (a.ReserveFor? || a.Mark? || a.Record? || a.RecordUncertain? || a.Release?)
    ensures a.i in Apply(w, a).agents && Apply(w, a).agents == w.agents[a.i := Apply(w, a).agents[a.i]]
  {
  }
}
