/**
 Two conditions under which every marker lands on its own row. A run is quiet when no reservation is
 released under a process that still has to mark it. An owner run has one process, engine or reconciler,
 at a time for each event; it is safe even with a wallet that accepts a payment it rejected before.
 */
module PaymentOwners {
  import opened Types
  import opened Payments
  import opened PaymentSafety
  import A = Accounting

  // ---- Rows a step leaves alone ----

  /** The row of an event is still there, for the same payment. */
  ghost predicate KeepsRow(before: A.Accounts, after: A.Accounts, e: EventId) {
    e in before.attempts ==> e in after.attempts && after.attempts[e].hash == before.attempts[e].hash
  }

  lemma MarksKeepRow(a: A.Accounts, hash: PaymentHash, now: nat, e: EventId)
    requires A.Valid(a)
    ensures KeepsRow(a, A.MarkInitiated(a, hash, now).0, e)
    ensures KeepsRow(a, A.MarkPending(a, hash, now).0, e)
  {
  }

  lemma FailureKeepsRow(a: A.Accounts, hash: PaymentHash, now: nat, e: EventId)
    requires A.Valid(a)
    ensures KeepsRow(a, A.MarkFailed(a, hash, now).0, e)
  {
  }

  lemma SuccessKeepsRow(a: A.Accounts, grants: map<ConnectionId, A.Grant>, hash: PaymentHash, amount: nat, fee: nat, now: nat, e: EventId)
    requires A.Valid(a)
    ensures KeepsRow(a, A.MarkSucceeded(a, grants, hash, amount, fee, now).0, e)
  {
  }

  lemma ReleaseKeepsOtherRows(a: A.Accounts, hash: PaymentHash, now: nat, e: EventId)
    requires !(hash in a.byHash && a.byHash[hash] == e)
    ensures KeepsRow(a, A.ReleaseUninitiated(a, hash, now).0, e)
  {
  }

  lemma RecordKeepsRow(w: World, hash: PaymentHash, status: Status, now: nat, e: EventId)
    requires A.Valid(w.accounts)
    ensures KeepsRow(w.accounts, RecordStatus(w, hash, status, now).0, e)
  {
    match status
    case Settled(_, amount, fee) => SuccessKeepsRow(w.accounts, w.grants, hash, amount, fee, now, e);
    case Failed => FailureKeepsRow(w.accounts, hash, now, e);
    case _ => MarksKeepRow(w.accounts, hash, now, e);
  }

  lemma ReserveKeepsRow(w: World, a: Action, e: EventId)
    requires A.Valid(w.accounts) && Enabled(w, a) && a.ReserveFor?
    ensures KeepsRow(w.accounts, Apply(w, a).accounts, e)
  {
    var order := w.orders[a.event];
    A.ReserveWrites(w.accounts, w.grants, a.event, a.hash, order.connection, order.revision, a.principal, a.now);
  }

  lemma OtherStepsKeepAttempts(w: World, a: Action)
    requires Enabled(w, a)
    requires !a.ReserveFor? && !a.Mark? && !a.Record? && !a.RecordUncertain? && !a.Release?
    ensures Apply(w, a).accounts.attempts == w.accounts.attempts
  {
  }

  /** A row leaves the table only by the release of its own process. */
  lemma RowStays(w: World, a: Action, e: EventId)
    requires A.Valid(w.accounts) && Enabled(w, a)
    requires a.Release? ==> !(AgentOf(w, a.i).hash in w.accounts.byHash && w.accounts.byHash[AgentOf(w, a.i).hash] == e)
    ensures KeepsRow(w.accounts, Apply(w, a).accounts, e)
  {
    if a.ReserveFor? {
      ReserveKeepsRow(w, a, e);
    } else if a.Mark? {
      MarksKeepRow(w.accounts, AgentOf(w, a.i).snap.hash, a.now, e);
    } else if a.Record? || a.RecordUncertain? {
      RecordKeepsRow(w, AgentOf(w, a.i).hash, if a.Record? then AgentOf(w, a.i).status else Unknown, a.now, e);
    } else if a.Release? {
      ReleaseKeepsOtherRows(w.accounts, AgentOf(w, a.i).hash, a.now, e);
    } else {
      OtherStepsKeepAttempts(w, a);
    }
  }

  // ---- Quiet runs ----

  /** A process that read this event's reservation before its marker and may still mark it. */
  predicate HoldsUnmarked(agent: Agent, event: EventId) {
    match agent
    case Loaded(e, snap) => e == event && !snap.WasInitiated()
    case Checked(e, snap) => e == event && !snap.WasInitiated()
    case Cleared(e, snap) => e == event && !snap.WasInitiated()
    case _ => false
  }

  /** A release is quiet when no other process stands between reading the released reservation and marking it. */
  ghost predicate Quiet(w: World, a: Action)
    requires Enabled(w, a)
  {
    a.Release? && AgentOf(w, a.i).hash in w.accounts.byHash ==>
      forall j <- w.agents :: j != a.i ==> !HoldsUnmarked(w.agents[j], w.accounts.byHash[AgentOf(w, a.i).hash])
  }

  /** Every release is quiet, and the wallet never revives a dead key. */
  ghost predicate QuietRun(w: World, actions: seq<Action>)
    decreases |actions|
  {
    actions == []
    || (Enabled(w, actions[0]) && Quiet(w, actions[0]) && !Revives(w, actions[0]) && QuietRun(Apply(w, actions[0]), actions[1..]))
  }

  /** The reservation an unmarked snapshot was read from is still there. */
  predicate StillReserved(w: World, agent: Agent) {
    match agent
    case Loaded(e, snap) => !snap.WasInitiated() ==> e in w.accounts.attempts && w.accounts.attempts[e].hash == snap.hash
    case Checked(e, snap) => !snap.WasInitiated() ==> e in w.accounts.attempts && w.accounts.attempts[e].hash == snap.hash
    case Cleared(e, snap) => !snap.WasInitiated() ==> e in w.accounts.attempts && w.accounts.attempts[e].hash == snap.hash
    case _ => true
  }

  ghost predicate AllStillReserved(w: World) {
    forall i <- w.agents :: StillReserved(w, w.agents[i])
  }

  lemma OtherStillReserved(w: World, a: Action, j: nat)
    requires A.Valid(w.accounts) && AllStillReserved(w) && Enabled(w, a) && Quiet(w, a) && j in w.agents && Actor(a) != Some(j)
    ensures StillReserved(Apply(w, a), w.agents[j])
  {
    var agent := w.agents[j];
    assert StillReserved(w, agent);
    if (agent.Loaded? || agent.Checked? || agent.Cleared?) && !agent.snap.WasInitiated() {
      assert HoldsUnmarked(agent, agent.event);
      RowStays(w, a, agent.event);
    }
  }

  lemma ActorStillReserved(w: World, a: Action)
    requires A.Valid(w.accounts) && Enabled(w, a) && Actor(a).Some? && StillReserved(w, AgentOf(w, a.i))
    ensures StillReserved(Apply(w, a), AgentOf(Apply(w, a), a.i))
  {
    if a.ReserveFor? {
      ReserverStillReserved(w, a);
    } else if a.Mark? || a.Record? || a.RecordUncertain? || a.Release? || a.Start? {
      WriterHoldsNothing(w, a);
    } else {
      ReaderStillReserved(w, a);
    }
  }

  lemma ReaderStillReserved(w: World, a: Action)
    requires A.Valid(w.accounts) && Enabled(w, a) && Actor(a).Some? && StillReserved(w, AgentOf(w, a.i))
    requires !a.ReserveFor? && !a.Mark? && !a.Record? && !a.RecordUncertain? && !a.Release? && !a.Start?
    ensures StillReserved(Apply(w, a), AgentOf(Apply(w, a), a.i))
  {
    if a.Load? {
      LoadedStillReserved(w, a.i, a.event);
    } else if a.Inquire? {
      InquirerStillReserved(w, a);
    }
  }

  lemma LoadedStillReserved(w: World, i: nat, event: EventId)
    requires A.Valid(w.accounts) && AgentOf(w, i).Idle? && event in w.orders
    ensures StillReserved(DoLoad(w, i, event), AgentOf(DoLoad(w, i, event), i))
  {
  }

  lemma InquirerStillReserved(w: World, a: Action)
    requires Enabled(w, a) && a.Inquire? && StillReserved(w, AgentOf(w, a.i))
    ensures StillReserved(Apply(w, a), AgentOf(Apply(w, a), a.i))
  {
  }

  lemma ReserverStillReserved(w: World, a: Action)
    requires A.Valid(w.accounts) && Enabled(w, a) && a.ReserveFor?
    ensures StillReserved(Apply(w, a), AgentOf(Apply(w, a), a.i))
  {
    var order := w.orders[a.event];
    A.ReserveWrites(w.accounts, w.grants, a.event, a.hash, order.connection, order.revision, a.principal, a.now);
  }

  lemma WriterHoldsNothing(w: World, a: Action)
    requires Enabled(w, a) && (a.Mark? || a.Record? || a.RecordUncertain? || a.Release? || a.Start?)
    ensures var agent := AgentOf(Apply(w, a), a.i);
            !agent.Loaded? && !agent.Checked? && !agent.Cleared? && !agent.Refused? && !agent.Reviewing?
            && (EventOf(agent).None? || EventOf(agent) == EventOf(AgentOf(w, a.i)))
  {
  }

  lemma QuietStepStillReserved(w: World, a: Action)
    requires A.Valid(w.accounts) && AllStillReserved(w) && Enabled(w, a) && Quiet(w, a)
    ensures AllStillReserved(Apply(w, a))
  {
    var w' := Apply(w, a);
    forall j | j in w'.agents
      ensures StillReserved(w', w'.agents[j])
    {
      if Actor(a) == Some(j) {
        assert StillReserved(w, AgentOf(w, j));
        ActorStillReserved(w, a);
      } else {
        OnlyActorMoves(w, a);
        OtherStillReserved(w, a, j);
      }
    }
  }

  lemma QuietStepIsGuarded(w: World, a: Action)
    requires A.Valid(w.accounts) && AllStillReserved(w) && Enabled(w, a) && !Revives(w, a)
    ensures Guarded(w, a)
  {
    if ArmsByMarker(w, a) {
      assert StillReserved(w, AgentOf(w, a.i));
    }
  }

  /** In a quiet run every marker that arms a process is on its own row. */
  lemma {:induction false} QuietRunIsGuarded(w: World, actions: seq<Action>)
    requires Inv(w) && Books(w) && AllStillReserved(w) && QuietRun(w, actions)
    ensures GuardedRun(w, actions)
    decreases |actions|
  {
    if actions != [] {
      QuietStepIsGuarded(w, actions[0]);
      StepKeepsInv(w, actions[0]);
      StepKeepsBooks(w, actions[0]);
      QuietStepStillReserved(w, actions[0]);
      QuietRunIsGuarded(Apply(w, actions[0]), actions[1..]);
    }
  }

  // ---- Owner runs ----

  /** The event a process works on. */
  function EventOf(agent: Agent): Option<EventId> {
    match agent
    case Idle => None
    case Reviewing(snap) => Some(snap.event)
    case _ => Some(agent.event)
  }

  /** The event an action is taken for. */
  function Subject(w: World, a: Action): Option<EventId> {
    match a
    case Load(_, event) => Some(event)
    case ReserveFor(_, event, _, _, _) => Some(event)
    case Review(_, event) => Some(event)
    case _ => if Actor(a).Some? then EventOf(AgentOf(w, Actor(a).value)) else None
  }

  /** No other process, engine or reconciler, works on the event of the action. */
  ghost predicate OnePerEvent(w: World, a: Action) {
    Actor(a).Some? && Subject(w, a).Some? ==>
      forall j <- w.agents :: j != Actor(a).value ==> EventOf(w.agents[j]) != Subject(w, a)
  }

  ghost predicate OwnerRun(w: World, actions: seq<Action>)
    decreases |actions|
  {
    actions == []
    || (Enabled(w, actions[0]) && OnePerEvent(w, actions[0]) && OwnerRun(Apply(w, actions[0]), actions[1..]))
  }

  /** Processes own different events, and each works on the current state of its row. */
  ghost predicate Owners(w: World) {
    && (forall i <- w.agents :: OwnerOk(w, w.agents[i]))
    && (forall i <- w.agents, j <- w.agents :: i != j && EventOf(w.agents[i]).Some? ==> EventOf(w.agents[i]) != EventOf(w.agents[j]))
  }

  predicate IsRow(w: World, e: EventId, snap: A.Attempt) {
    e in w.accounts.attempts && w.accounts.attempts[e] == snap
  }

  predicate OwnerOk(w: World, agent: Agent) {
    match agent
    case Loaded(e, snap) => IsRow(w, e, snap)
    case Checked(e, snap) => IsRow(w, e, snap)
    case Cleared(e, snap) => IsRow(w, e, snap)
    case Armed(e, snap) => e in w.accounts.attempts && w.accounts.attempts[e].state == snap.state
    case Reviewing(snap) => IsRow(w, snap.event, snap)
    case Refused(e, hash) => e in w.accounts.attempts && w.accounts.attempts[e].hash == hash
    case _ => true
  }

  /** Two tables agree on one event. */
  ghost predicate SameRow(before: A.Accounts, after: A.Accounts, e: EventId) {
    e in before.attempts ==> e in after.attempts && after.attempts[e] == before.attempts[e]
  }

  /** What the invariants say of the acting process. */
  ghost predicate ActorFit(w: World, a: Action) {
    Actor(a).Some? ==>
      var agent := AgentOf(w, a.i);
      && AgentOk(w, agent) && OwnerOk(w, agent)
      && (agent.Reported? || agent.Uncertain? ==> agent.event in w.wallet && KeyOk(w, agent.event))
  }

  lemma ActorIsFit(w: World, a: Action)
    requires Inv(w) && Owners(w) && Enabled(w, a)
    ensures ActorFit(w, a)
  {
    if Actor(a).Some? {
      var agent := AgentOf(w, a.i);
      assert AgentOk(w, agent) && OwnerOk(w, agent);
      assert agent.Reported? || agent.Uncertain? ==> KeyOk(w, agent.event);
    }
  }

  /** The accounting step of a process touches no row but its own event's. */
  lemma OwnerTouchesOwnRow(w: World, a: Action, e: EventId)
    requires A.Valid(w.accounts) && Enabled(w, a) && ActorFit(w, a) && Subject(w, a) != Some(e)
    ensures SameRow(w.accounts, Apply(w, a).accounts, e)
  {
    if a.ReserveFor? {
      ReserveTouchesOwnRow(w, a, e);
    } else if a.Mark? {
      MarkTouchesOwnRow(w, a, e);
    } else if a.Record? || a.RecordUncertain? {
      RecordTouchesOwnRow(w, a, e);
    } else if a.Release? {
      ReleaseTouchesOwnRow(w, a, e);
    } else {
      OtherStepsKeepAttempts(w, a);
    }
  }

  lemma ReserveTouchesOwnRow(w: World, a: Action, e: EventId)
    requires A.Valid(w.accounts) && Enabled(w, a) && a.ReserveFor? && a.event != e
    ensures SameRow(w.accounts, Apply(w, a).accounts, e)
  {
    var order := w.orders[a.event];
    A.ReserveWrites(w.accounts, w.grants, a.event, a.hash, order.connection, order.revision, a.principal, a.now);
  }

  lemma MarkTouchesOwnRow(w: World, a: Action, e: EventId)
    requires A.Valid(w.accounts) && Enabled(w, a) && a.Mark? && AgentOf(w, a.i).event != e
    requires IsRow(w, AgentOf(w, a.i).event, AgentOf(w, a.i).snap)
    ensures SameRow(w.accounts, Apply(w, a).accounts, e)
  {
    A.OwnRow(w.accounts, AgentOf(w, a.i).event);
  }

  lemma RecordTouchesOwnRow(w: World, a: Action, e: EventId)
    requires A.Valid(w.accounts) && Enabled(w, a) && (a.Record? || a.RecordUncertain?) && AgentOf(w, a.i).event != e
    requires var agent := AgentOf(w, a.i);
             agent.event in w.accounts.attempts && w.accounts.attempts[agent.event].hash == agent.hash
             && w.accounts.attempts[agent.event].WasInitiated()
    ensures SameRow(w.accounts, Apply(w, a).accounts, e)
  {
    var agent := AgentOf(w, a.i);
    match if a.Record? then agent.status else Unknown
    case Settled(_, amount, fee) => SettlingTouchesOwnRow(w.accounts, w.grants, agent.event, amount, fee, a.now, e);
    case Failed => FailingTouchesOwnRow(w.accounts, agent.event, a.now, e);
    case _ => PendingTouchesOwnRow(w.accounts, agent.event, a.now, e);
  }

  lemma SettlingTouchesOwnRow(a: A.Accounts, grants: map<ConnectionId, A.Grant>, own: EventId, amount: nat, fee: nat, now: nat, e: EventId)
    requires A.Valid(a) && own in a.attempts && own != e
    ensures SameRow(a, A.MarkSucceeded(a, grants, a.attempts[own].hash, amount, fee, now).0, e)
  {
    A.OwnRow(a, own);
  }

  lemma FailingTouchesOwnRow(a: A.Accounts, own: EventId, now: nat, e: EventId)
    requires A.Valid(a) && own in a.attempts && own != e
    ensures SameRow(a, A.MarkFailed(a, a.attempts[own].hash, now).0, e)
  {
    A.OwnRow(a, own);
  }

  lemma PendingTouchesOwnRow(a: A.Accounts, own: EventId, now: nat, e: EventId)
    requires A.Valid(a) && own in a.attempts && own != e
    ensures SameRow(a, A.MarkPending(a, a.attempts[own].hash, now).0, e)
  {
    A.OwnRow(a, own);
  }

  lemma ReleaseTouchesOwnRow(w: World, a: Action, e: EventId)
    requires A.Valid(w.accounts) && Enabled(w, a) && a.Release? && AgentOf(w, a.i).event != e
    requires AgentOf(w, a.i).event in w.accounts.attempts && w.accounts.attempts[AgentOf(w, a.i).event].hash == AgentOf(w, a.i).hash
    ensures SameRow(w.accounts, Apply(w, a).accounts, e)
  {
    A.OwnRow(w.accounts, AgentOf(w, a.i).event);
  }

  lemma OtherOwnerStaysOk(w: World, a: Action, j: nat)
    requires A.Valid(w.accounts) && Enabled(w, a) && ActorFit(w, a) && OnePerEvent(w, a)
    requires j in w.agents && OwnerOk(w, w.agents[j]) && Actor(a) != Some(j)
    ensures OwnerOk(Apply(w, a), w.agents[j])
  {
    if EventOf(w.agents[j]).Some? {
      OwnerTouchesOwnRow(w, a, EventOf(w.agents[j]).value);
    }
  }

  /** The acting process keeps its event and goes on with the current row. */
  lemma ActorStaysOwner(w: World, a: Action)
    requires A.Valid(w.accounts) && Enabled(w, a) && Actor(a).Some? && ActorFit(w, a)
    ensures OwnerStays(w, a)
  {
    if a.ReserveFor? {
      ReserverStaysOwner(w, a);
    } else if a.Mark? {
      MarkerStaysOwner(w, a);
    } else if a.Record? || a.RecordUncertain? || a.Release? || a.Start? {
      WriterHoldsNothing(w, a);
      WriterIsNotArmed(w, a);
    } else {
      ReaderStaysOwner(w, a);
    }
  }

  ghost predicate OwnerStays(w: World, a: Action)
    requires Enabled(w, a) && Actor(a).Some?
  {
    var agent := AgentOf(Apply(w, a), a.i);
    (EventOf(agent).None? || EventOf(agent) == Subject(w, a)) && OwnerOk(Apply(w, a), agent)
  }

  lemma ReaderStaysOwner(w: World, a: Action)
    requires A.Valid(w.accounts) && Enabled(w, a) && Actor(a).Some? && ActorFit(w, a)
    requires !a.ReserveFor? && !a.Mark? && !a.Record? && !a.RecordUncertain? && !a.Release? && !a.Start?
    ensures OwnerStays(w, a)
  {
    if a.Load? {
      LoaderStaysOwner(w, a);
    } else if a.Review? {
      ReviewerStaysOwner(w, a);
    } else if a.Inquire? || a.ReviewStatus? {
      AskerStaysOwner(w, a);
    } else {
      CarrierStaysOwner(w, a);
    }
  }

  lemma LoaderStaysOwner(w: World, a: Action)
    requires A.Valid(w.accounts) && Enabled(w, a) && a.Load?
    ensures OwnerStays(w, a)
  {
    LoadedIsOwner(w, a.i, a.event);
  }

  lemma LoadedIsOwner(w: World, i: nat, event: EventId)
    requires A.Valid(w.accounts) && AgentOf(w, i).Idle? && event in w.orders
    ensures var agent := AgentOf(DoLoad(w, i, event), i);
            (EventOf(agent).None? || EventOf(agent) == Some(event)) && OwnerOk(DoLoad(w, i, event), agent)
  {
  }

  lemma ReviewerStaysOwner(w: World, a: Action)
    requires A.Valid(w.accounts) && Enabled(w, a) && a.Review?
    ensures OwnerStays(w, a)
  {
    assert w.accounts.attempts[a.event].event == a.event;
  }

  lemma AskerStaysOwner(w: World, a: Action)
    requires Enabled(w, a) && (a.Inquire? || a.ReviewStatus?) && OwnerOk(w, AgentOf(w, a.i))
    ensures OwnerStays(w, a)
  {
  }

  lemma CarrierStaysOwner(w: World, a: Action)
    requires Enabled(w, a) && (a.Settle? || a.ResumeBlind? || a.Authorize? || a.SkipReview? || a.Crash?)
    requires OwnerOk(w, AgentOf(w, a.i))
    ensures OwnerStays(w, a)
  {
  }

  lemma ReserverStaysOwner(w: World, a: Action)
    requires A.Valid(w.accounts) && Enabled(w, a) && a.ReserveFor?
    ensures var agent := AgentOf(Apply(w, a), a.i);
            (EventOf(agent).None? || EventOf(agent) == Some(a.event)) && OwnerOk(Apply(w, a), agent)
  {
    var order := w.orders[a.event];
    A.ReserveWrites(w.accounts, w.grants, a.event, a.hash, order.connection, order.revision, a.principal, a.now);
  }

  lemma MarkerStaysOwner(w: World, a: Action)
    requires A.Valid(w.accounts) && Enabled(w, a) && a.Mark? && OwnerOk(w, AgentOf(w, a.i))
    ensures var agent := AgentOf(Apply(w, a), a.i);
            (EventOf(agent).None? || EventOf(agent) == Subject(w, a)) && OwnerOk(Apply(w, a), agent)
  {
    A.OwnRow(w.accounts, AgentOf(w, a.i).event);
  }

  lemma WriterIsNotArmed(w: World, a: Action)
    requires Enabled(w, a) && (a.Record? || a.RecordUncertain? || a.Release? || a.Start?)
    ensures !AgentOf(Apply(w, a), a.i).Armed?
  {
  }

  lemma StepKeepsOwners(w: World, a: Action)
    requires Inv(w) && A.Valid(w.accounts) && Owners(w) && Enabled(w, a) && OnePerEvent(w, a)
    ensures Owners(Apply(w, a))
  {
    ActorIsFit(w, a);
    OnlyActorMoves(w, a);
    if Actor(a).Some? {
      ActorStaysOwner(w, a);
    }
    OwnersFollow(w, a);
  }

  lemma OwnersFollow(w: World, a: Action)
    requires A.Valid(w.accounts) && Owners(w) && Enabled(w, a) && OnePerEvent(w, a) && ActorFit(w, a)
    requires Actor(a).Some? ==> OwnerStays(w, a)
    ensures Owners(Apply(w, a))
  {
    var w' := Apply(w, a);
    OnlyActorMoves(w, a);
    forall j | j in w'.agents
      ensures OwnerOk(w', w'.agents[j])
    {
      if Actor(a) != Some(j) {
        assert OwnerOk(w, w.agents[j]);
        OtherOwnerStaysOk(w, a, j);
      }
    }
  }

  lemma OwnedStepIsGuarded(w: World, a: Action)
    requires Inv(w) && A.Valid(w.accounts) && Owners(w) && Enabled(w, a)
    ensures Guarded(w, a)
  {
    if ArmsByMarker(w, a) || Revives(w, a) {
      assert OwnerOk(w, AgentOf(w, a.i)) && AgentOk(w, AgentOf(w, a.i));
      assert EventOf(AgentOf(w, a.i)) == Some(AgentOf(w, a.i).event);
    }
  }

  /** With one process per event every run is guarded, however many events are in flight and whatever the wallet revives. */
  lemma {:induction false} OwnerRunIsGuarded(w: World, actions: seq<Action>)
    requires Inv(w) && Books(w) && Owners(w) && OwnerRun(w, actions)
    ensures GuardedRun(w, actions)
    ensures Run(w, actions) && Owners(After(w, actions))
    decreases |actions|
  {
    if actions != [] {
      var a := actions[0];
      OwnedStepIsGuarded(w, a);
      StepKeepsInv(w, a);
      StepKeepsBooks(w, a);
      StepKeepsOwners(w, a);
      OwnerRunIsGuarded(Apply(w, a), actions[1..]);
    }
    GuardedRunIsRun(w, actions);
  }

  /**
   Any number of processes, one per event, killed at any point, and a wallet that may even accept a
   payment it rejected before: a payment that may still settle is always covered by its own event's
   marked and debited attempt.
   */
  lemma OwnedPaymentsStayDebited(start: World, actions: seq<Action>, k: EventId)
    requires Init(start) && OwnerRun(start, actions)
    ensures Run(start, actions)
    ensures Live(After(start, actions), k) ==> Covered(After(start, actions), k)
  {
    InitIsInv(start);
    OwnerRunIsGuarded(start, actions);
    LivePaymentsStayDebited(start, actions, k);
  }

  /**
   With one process per event, and any crash and restart, every wallet call follows a durable
   reservation and marker of its own event and never a durable failure or success.
   */
  lemma OwnedStartsAreUnresolved(start: World, actions: seq<Action>, a: Action)
    requires Init(start) && OwnerRun(start, actions)
    ensures Run(start, actions)
    ensures var w := After(start, actions);
            Enabled(w, a) && a.Start? ==>
              var e := AgentOf(w, a.i).event;
              && e in w.accounts.attempts
              && w.accounts.attempts[e].WasInitiated()
              && (w.accounts.attempts[e].state.Reserved? || w.accounts.attempts[e].state.Pending?)
  {
    InitIsInv(start);
    OwnerRunIsGuarded(start, actions);
    GuardedRunKeepsInv(start, actions);
    var w := After(start, actions);
    if Enabled(w, a) && a.Start? {
      assert AgentOk(w, AgentOf(w, a.i)) && OwnerOk(w, AgentOf(w, a.i));
    }
  }
}
