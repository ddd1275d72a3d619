/**
 Unresolved debits of an older schema: whether their wallet call happened is unknown, so nothing in this
 version may touch them. The result holds of every run, guarded or not.
 */
module PaymentLegacy {
  import opened Types
  import opened Payments
  import opened PaymentSafety
  import opened PaymentOwners
  import A = Accounting

  /** The process holds nothing of the legacy event but its ambiguous snapshot, and nobody else's hash collides. */
  predicate Apart(agent: Agent, e: EventId, hash: PaymentHash) {
    match agent
    case Idle => true
    case Loaded(d, snap) => if d == e then snap.legacyAmbiguous else snap.hash != hash
    case Checked(d, snap) => d != e && snap.hash != hash
    case Cleared(d, snap) => d != e && snap.hash != hash
    case Armed(d, snap) => d != e && snap.hash != hash
    case Reported(d, h, _) => d != e && h != hash
    case Uncertain(d, h) => d != e && h != hash
    case Refused(d, h) => d != e && h != hash
    case Reviewing(snap) => snap.event != e && snap.hash != hash
    case Answering(_, _) => true
  }

  ghost predicate Untouched(w: World, e: EventId, t: A.Attempt) {
    && IsRow(w, e, t) && t.legacyAmbiguous && t.WasInitiated()
    && e !in w.wallet
    && (forall c <- w.calls :: c.key != e)
    && forall i <- w.agents :: Apart(w.agents[i], e, t.hash)
  }

  // ---- The row ----

  lemma MarkSpares(a: A.Accounts, hash: PaymentHash, now: nat, e: EventId)
    requires A.Valid(a) && e in a.attempts && a.attempts[e].WasInitiated()
    ensures SameRow(a, A.MarkInitiated(a, hash, now).0, e)
    ensures SameRow(a, A.ReleaseUninitiated(a, hash, now).0, e)
  {
  }

  lemma FailureSpares(a: A.Accounts, hash: PaymentHash, now: nat, e: EventId)
    requires A.Valid(a) && e in a.attempts && a.attempts[e].hash != hash
    ensures SameRow(a, A.MarkFailed(a, hash, now).0, e)
    ensures SameRow(a, A.MarkPending(a, hash, now).0, e)
  {
  }

  lemma SuccessSpares(a: A.Accounts, grants: map<ConnectionId, A.Grant>, hash: PaymentHash, amount: nat, fee: nat, now: nat, e: EventId)
    requires A.Valid(a) && e in a.attempts && a.attempts[e].hash != hash
    ensures SameRow(a, A.MarkSucceeded(a, grants, hash, amount, fee, now).0, e)
  {
  }

  lemma RecordSpares(w: World, hash: PaymentHash, status: Status, now: nat, e: EventId)
    requires A.Valid(w.accounts) && e in w.accounts.attempts && w.accounts.attempts[e].hash != hash
    ensures SameRow(w.accounts, RecordStatus(w, hash, status, now).0, e)
  {
    match status
    case Settled(_, amount, fee) => SuccessSpares(w.accounts, w.grants, hash, amount, fee, now, e);
    case _ => FailureSpares(w.accounts, hash, now, e);
  }

  lemma ReserveSpares(w: World, a: Action, e: EventId)
    requires A.Valid(w.accounts) && Enabled(w, a) && a.ReserveFor? && e in w.accounts.attempts
    ensures SameRow(w.accounts, Apply(w, a).accounts, e)
  {
    var order := w.orders[a.event];
    A.ReserveWrites(w.accounts, w.grants, a.event, a.hash, order.connection, order.revision, a.principal, a.now);
  }

  lemma RowIsSpared(w: World, a: Action, e: EventId, t: A.Attempt)
    requires A.Valid(w.accounts) && Enabled(w, a) && Untouched(w, e, t)
    ensures IsRow(Apply(w, a), e, t)
  {
    if a.ReserveFor? {
      ReserveSpares(w, a, e);
    } else if a.Mark? {
      MarkSpares(w.accounts, AgentOf(w, a.i).snap.hash, a.now, e);
    } else if a.Release? {
      MarkSpares(w.accounts, AgentOf(w, a.i).hash, a.now, e);
    } else if a.Record? || a.RecordUncertain? {
      assert Apart(AgentOf(w, a.i), e, t.hash);
      RecordSpares(w, AgentOf(w, a.i).hash, if a.Record? then AgentOf(w, a.i).status else Unknown, a.now, e);
    } else {
      OtherStepsKeepAttempts(w, a);
    }
  }

  // ---- The wallet ----

  lemma WalletIsSpared(w: World, a: Action, e: EventId, t: A.Attempt)
    requires Enabled(w, a) && Untouched(w, e, t)
    ensures e !in Apply(w, a).wallet && forall c <- Apply(w, a).calls :: c.key != e
  {
    OnlyStartsCall(w, a);
    if a.Start? {
      assert Apart(AgentOf(w, a.i), e, t.hash);
    }
  }

  lemma OnlyStartsCall(w: World, a: Action)
    requires Enabled(w, a)
    ensures Apply(w, a).wallet.Keys <= w.wallet.Keys + (if a.Start? then {AgentOf(w, a.i).event} else {})
    ensures !a.Start? ==> Apply(w, a).calls == w.calls
  {
  }

  // ---- The processes ----

  lemma LoaderIsApart(w: World, i: nat, event: EventId, e: EventId, t: A.Attempt)
    requires A.Valid(w.accounts) && AgentOf(w, i).Idle? && event in w.orders && Untouched(w, e, t)
    ensures Apart(AgentOf(DoLoad(w, i, event), i), e, t.hash)
  {
  }

  lemma ReserverIsApart(w: World, a: Action, e: EventId, t: A.Attempt)
    requires A.Valid(w.accounts) && Enabled(w, a) && a.ReserveFor? && Untouched(w, e, t)
    ensures Apart(AgentOf(Apply(w, a), a.i), e, t.hash)
  {
    var order := w.orders[a.event];
    A.ReserveWrites(w.accounts, w.grants, a.event, a.hash, order.connection, order.revision, a.principal, a.now);
  }

  lemma WriterIsApart(w: World, a: Action, e: EventId, hash: PaymentHash)
    requires Enabled(w, a) && (a.Mark? || a.Start? || a.Record? || a.RecordUncertain? || a.Release?)
    requires Apart(AgentOf(w, a.i), e, hash)
    ensures Apart(AgentOf(Apply(w, a), a.i), e, hash)
  {
  }

  lemma CarrierIsApart(w: World, a: Action, e: EventId, hash: PaymentHash)
    requires Enabled(w, a)
    requires a.Settle? || a.Inquire? || a.ResumeBlind? || a.Authorize? || a.SkipReview? || a.ReviewStatus? || a.Crash?
    requires Apart(AgentOf(w, a.i), e, hash)
    ensures Apart(AgentOf(Apply(w, a), a.i), e, hash)
  {
  }

  lemma ActorIsApart(w: World, a: Action, e: EventId, t: A.Attempt)
    requires A.Valid(w.accounts) && Enabled(w, a) && Actor(a).Some? && Untouched(w, e, t)
    ensures Apart(AgentOf(Apply(w, a), a.i), e, t.hash)
  {
    assert Apart(AgentOf(w, a.i), e, t.hash);
    if a.Load? {
      LoaderIsApart(w, a.i, a.event, e, t);
    } else if a.ReserveFor? {
      ReserverIsApart(w, a, e, t);
    } else if a.Review? {
      assert w.accounts.attempts[a.event].event == a.event;
    } else if a.Mark? || a.Start? || a.Record? || a.RecordUncertain? || a.Release? {
      WriterIsApart(w, a, e, t.hash);
    } else {
      CarrierIsApart(w, a, e, t.hash);
    }
  }

  lemma StepKeepsUntouched(w: World, a: Action, e: EventId, t: A.Attempt)
    requires A.Valid(w.accounts) && Enabled(w, a) && Untouched(w, e, t)
    ensures Untouched(Apply(w, a), e, t)
  {
    var w' := Apply(w, a);
    RowIsSpared(w, a, e, t);
    WalletIsSpared(w, a, e, t);
    OnlyActorMoves(w, a);
    if Actor(a).Some? {
      ActorIsApart(w, a, e, t);
    }
    forall j | j in w'.agents
      ensures Apart(w'.agents[j], e, t.hash)
    {
      assert Actor(a) != Some(j) ==> w'.agents[j] == w.agents[j];
    }
  }

  lemma {:induction false} RunKeepsUntouched(w: World, actions: seq<Action>, e: EventId, t: A.Attempt)
    requires Books(w) && Run(w, actions) && Untouched(w, e, t)
    ensures Untouched(After(w, actions), e, t)
    decreases |actions|
  {
    if actions != [] {
      StepKeepsUntouched(w, actions[0], e, t);
      StepKeepsBooks(w, actions[0]);
      RunKeepsUntouched(Apply(w, actions[0]), actions[1..], e, t);
    }
  }

  // ---- The result ----

  /**
   An unresolved debit of an older schema stays exactly as it was in every run: no interleaving, crash,
   wallet answer or misplaced marker changes or refunds it, and the wallet is never called for its event.
   */
  lemma LegacyDebitIsFrozen(start: World, actions: seq<Action>, e: EventId)
    requires Init(start) && Run(start, actions)
    requires e in start.accounts.attempts && start.accounts.attempts[e].legacyAmbiguous
    ensures IsRow(After(start, actions), e, start.accounts.attempts[e])
    ensures e !in After(start, actions).wallet && forall c <- After(start, actions).calls :: c.key != e
  {
    RunKeepsUntouched(start, actions, e, start.accounts.attempts[e]);
  }
}
