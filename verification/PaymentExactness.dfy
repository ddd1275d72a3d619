/**
 The exact condition of the coverage result, over whole runs. The guard is one a caller can check
 before it marks: the attempt found under its payment hash belongs to its own event.
 */
module PaymentExactness {
  import opened Types
  import opened Payments
  import opened PaymentSafety
  import opened PaymentOwners
  import A = Accounting

  /** Runs with a wallet that keeps its documentation: a rejected key stays rejected. */
  ghost predicate StickyRun(w: World, actions: seq<Action>)
    decreases |actions|
  {
    actions == []
    || (Enabled(w, actions[0]) && !Revives(w, actions[0]) && StickyRun(Apply(w, actions[0]), actions[1..]))
  }

  /** Every marker that arms a process is on the row of that process's own event. */
  ghost predicate OwnMarkRun(w: World, actions: seq<Action>)
    decreases |actions|
  {
    actions == []
    || (Enabled(w, actions[0]) && MarksOwnRow(w, actions[0]) && OwnMarkRun(Apply(w, actions[0]), actions[1..]))
  }

  /** For a documented wallet the guard is only about markers. */
  lemma {:induction false} StickyGuardIsOwnMarks(w: World, actions: seq<Action>)
    requires StickyRun(w, actions)
    ensures GuardedRun(w, actions) <==> OwnMarkRun(w, actions)
    decreases |actions|
  {
    if actions != [] {
      StickyGuardIsOwnMarks(Apply(w, actions[0]), actions[1..]);
    }
  }

  /** An event's invoice is always quoted with the one payment hash it names. */
  ghost predicate Quoted(actions: seq<Action>, quote: EventId -> PaymentHash) {
    forall a <- actions :: a.ReserveFor? ==> a.hash == quote(a.event)
  }

  /** Every payment that may still settle is covered. */
  ghost predicate AllCovered(w: World) {
    forall k <- w.wallet :: Live(w, k) ==> Covered(w, k)
  }

  /** Payments are covered now and after any call that an armed process may make next. */
  ghost predicate StartsSafely(w: World) {
    && AllCovered(w)
    && forall i, reply, phase ::
         Enabled(w, Start(i, reply, phase)) && !Revives(w, Start(i, reply, phase)) ==> AllCovered(Apply(w, Start(i, reply, phase)))
  }

  // ---- Prefixes of runs ----

  lemma {:induction false} PrefixRuns(w: World, actions: seq<Action>, n: nat)
    requires Run(w, actions) && n <= |actions|
    ensures Run(w, actions[..n])
    ensures n < |actions| ==> Enabled(After(w, actions[..n]), actions[n])
    ensures n < |actions| ==> Run(w, actions[..n + 1]) && After(w, actions[..n + 1]) == Apply(After(w, actions[..n]), actions[n])
    decreases n
  {
    if n > 0 {
      assert actions[..n][0] == actions[0] && actions[..n][1..] == actions[1..][..n - 1];
      PrefixRuns(Apply(w, actions[0]), actions[1..], n - 1);
      if n < |actions| {
        assert actions[..n + 1][0] == actions[0] && actions[..n + 1][1..] == actions[1..][..n];
      }
    } else if |actions| > 0 {
      assert actions[..1][1..] == [];
    }
  }

  lemma {:induction false} StickyRunIsRun(w: World, actions: seq<Action>)
    requires StickyRun(w, actions)
    ensures Run(w, actions)
    decreases |actions|
  {
    if actions != [] {
      StickyRunIsRun(Apply(w, actions[0]), actions[1..]);
    }
  }

  lemma {:induction false} StickyAt(w: World, actions: seq<Action>, n: nat)
    requires StickyRun(w, actions) && n < |actions|
    ensures Run(w, actions) && Run(w, actions[..n]) && !Revives(After(w, actions[..n]), actions[n])
    decreases n
  {
    StickyRunIsRun(w, actions);
    PrefixRuns(w, actions, n);
    if n > 0 {
      assert actions[..n][0] == actions[0] && actions[..n][1..] == actions[1..][..n - 1];
      StickyAt(Apply(w, actions[0]), actions[1..], n - 1);
    }
  }

  lemma {:induction false} GuardedPrefix(w: World, actions: seq<Action>, n: nat)
    requires GuardedRun(w, actions) && n <= |actions|
    ensures GuardedRun(w, actions[..n])
    decreases n
  {
    if n > 0 {
      assert actions[..n][0] == actions[0] && actions[..n][1..] == actions[1..][..n - 1];
      GuardedPrefix(Apply(w, actions[0]), actions[1..], n - 1);
    }
  }

  /** One more guarded step. */
  lemma {:induction false} GuardedExtends(w: World, actions: seq<Action>, a: Action)
    requires GuardedRun(w, actions) && Run(w, actions) && Enabled(After(w, actions), a) && Guarded(After(w, actions), a)
    ensures GuardedRun(w, actions + [a])
    decreases |actions|
  {
    if actions == [] {
      assert [] + [a] == [a] && [a][1..] == [];
    } else {
      assert (actions + [a])[0] == actions[0] && (actions + [a])[1..] == actions[1..] + [a];
      GuardedExtends(Apply(w, actions[0]), actions[1..], a);
    }
  }

  // ---- Hashes of reservations ----

  /** Unmarked rows and snapshots carry the hash their invoice names. */
  ghost predicate HashesQuoted(w: World, quote: EventId -> PaymentHash) {
    && (forall e <- w.accounts.attempts :: RowQuoted(w, quote, e))
    && (forall i <- w.agents :: AgentQuoted(w, quote, w.agents[i]))
  }

  predicate RowQuoted(w: World, quote: EventId -> PaymentHash, e: EventId) {
    e in w.accounts.attempts && !w.accounts.attempts[e].WasInitiated() ==> w.accounts.attempts[e].hash == quote(e)
  }

  /** The snapshot's hash is the quoted one, and so is the hash of whatever row its event has now. */
  predicate SnapQuoted(w: World, quote: EventId -> PaymentHash, e: EventId, snap: A.Attempt) {
    !snap.WasInitiated() ==>
      snap.hash == quote(e) && (e in w.accounts.attempts ==> w.accounts.attempts[e].hash == quote(e))
  }

  predicate AgentQuoted(w: World, quote: EventId -> PaymentHash, agent: Agent) {
    match agent
    case Loaded(e, snap) => SnapQuoted(w, quote, e, snap)
    case Checked(e, snap) => SnapQuoted(w, quote, e, snap)
    case Cleared(e, snap) => SnapQuoted(w, quote, e, snap)
    case _ => true
  }

  /** Rows keep their hash, markers stay, and a new row is a reservation of this step. */
  ghost predicate RowOrigin(w: World, a: Action, e: EventId)
    requires Enabled(w, a)
  {
    e in Apply(w, a).accounts.attempts ==>
      var t := Apply(w, a).accounts.attempts[e];
      if e in w.accounts.attempts
      then t.hash == w.accounts.attempts[e].hash && (w.accounts.attempts[e].WasInitiated() ==> t.WasInitiated())
      else a.ReserveFor? && a.event == e && a.hash == t.hash
  }

  /** The tables of one event after a step: its row forward, or gone. */
  ghost predicate NoNewRow(before: A.Accounts, after: A.Accounts, e: EventId) {
    e in after.attempts ==>
      && e in before.attempts && after.attempts[e].hash == before.attempts[e].hash
      && (before.attempts[e].WasInitiated() ==> after.attempts[e].WasInitiated())
  }

  lemma MarksAddNoRow(a: A.Accounts, hash: PaymentHash, now: nat, e: EventId)
    requires A.Valid(a)
    ensures NoNewRow(a, A.MarkInitiated(a, hash, now).0, e)
    ensures NoNewRow(a, A.MarkPending(a, hash, now).0, e)
  {
  }

  lemma FailureAddsNoRow(a: A.Accounts, hash: PaymentHash, now: nat, e: EventId)
    requires A.Valid(a)
    ensures NoNewRow(a, A.MarkFailed(a, hash, now).0, e)
    ensures NoNewRow(a, A.ReleaseUninitiated(a, hash, now).0, e)
  {
  }

  lemma SuccessAddsNoRow(a: A.Accounts, grants: map<ConnectionId, A.Grant>, hash: PaymentHash, amount: nat, fee: nat, now: nat, e: EventId)
    requires A.Valid(a)
    ensures NoNewRow(a, A.MarkSucceeded(a, grants, hash, amount, fee, now).0, e)
  {
  }

  lemma RecordAddsNoRow(w: World, hash: PaymentHash, status: Status, now: nat, e: EventId)
    requires A.Valid(w.accounts)
    ensures NoNewRow(w.accounts, RecordStatus(w, hash, status, now).0, e)
  {
    match status
    case Settled(_, amount, fee) => SuccessAddsNoRow(w.accounts, w.grants, hash, amount, fee, now, e);
    case Failed => FailureAddsNoRow(w.accounts, hash, now, e);
    case _ => MarksAddNoRow(w.accounts, hash, now, e);
  }

  lemma ReserveAddsItsRow(w: World, a: Action, e: EventId)
    requires A.Valid(w.accounts) && Enabled(w, a) && a.ReserveFor?
    ensures RowOrigin(w, a, e)
  {
    var order := w.orders[a.event];
    A.ReserveWrites(w.accounts, w.grants, a.event, a.hash, order.connection, order.revision, a.principal, a.now);
  }

  lemma RowsHaveOrigins(w: World, a: Action, e: EventId)
    requires A.Valid(w.accounts) && Enabled(w, a)
    ensures RowOrigin(w, a, e)
  {
    if a.ReserveFor? {
      ReserveAddsItsRow(w, a, e);
    } else if a.Mark? {
      MarksAddNoRow(w.accounts, AgentOf(w, a.i).snap.hash, a.now, e);
    } else if a.Record? || a.RecordUncertain? {
      RecordAddsNoRow(w, AgentOf(w, a.i).hash, if a.Record? then AgentOf(w, a.i).status else Unknown, a.now, e);
    } else if a.Release? {
      FailureAddsNoRow(w.accounts, AgentOf(w, a.i).hash, a.now, e);
    } else {
      OtherStepsKeepAttempts(w, a);
    }
  }

  lemma SnapStaysQuoted(w: World, a: Action, quote: EventId -> PaymentHash, e: EventId, snap: A.Attempt)
    requires Enabled(w, a) && SnapQuoted(w, quote, e, snap) && RowOrigin(w, a, e)
    requires a.ReserveFor? ==> a.hash == quote(a.event)
    ensures SnapQuoted(Apply(w, a), quote, e, snap)
  {
  }

  /** A snapshot the acting process holds after the step is the one it held, or its event's current row. */
  lemma ActorSnapshot(w: World, a: Action)
    requires A.Valid(w.accounts) && Enabled(w, a) && Actor(a).Some?
    ensures var after, before := AgentOf(Apply(w, a), a.i), AgentOf(w, a.i);
            after.Loaded? || after.Checked? || after.Cleared? ==>
              || IsRow(Apply(w, a), after.event, after.snap)
              || ((before.Loaded? || before.Checked?) && before.event == after.event && before.snap == after.snap)
  {
    if a.ReserveFor? {
      ReserverStaysOwner(w, a);
    } else if a.Mark? || a.Record? || a.RecordUncertain? || a.Release? || a.Start? {
      WriterHoldsNothing(w, a);
    }
  }

  /** A snapshot held before the step, by this or another process. */
  lemma OldSnapshotStaysQuoted(w: World, a: Action, quote: EventId -> PaymentHash, agent: Agent, later: Agent)
    requires A.Valid(w.accounts) && Enabled(w, a) && AgentQuoted(w, quote, agent)
    requires a.ReserveFor? ==> a.hash == quote(a.event)
    requires agent.Loaded? || agent.Checked? || agent.Cleared?
    requires later.Loaded? || later.Checked? || later.Cleared?
    requires later.event == agent.event && later.snap == agent.snap
    ensures AgentQuoted(Apply(w, a), quote, later)
  {
    RowsHaveOrigins(w, a, agent.event);
    SnapStaysQuoted(w, a, quote, agent.event, agent.snap);
  }

  lemma AgentStaysQuoted(w: World, a: Action, quote: EventId -> PaymentHash, j: nat)
    requires A.Valid(w.accounts) && AgentQuoted(w, quote, AgentOf(w, j)) && Enabled(w, a) && j in Apply(w, a).agents
    requires a.ReserveFor? ==> a.hash == quote(a.event)
    requires forall e <- Apply(w, a).accounts.attempts :: RowQuoted(Apply(w, a), quote, e)
    ensures AgentQuoted(Apply(w, a), quote, Apply(w, a).agents[j])
  {
    var before, after := AgentOf(w, j), Apply(w, a).agents[j];
    OnlyActorMoves(w, a);
    if after.Loaded? || after.Checked? || after.Cleared? {
      if Actor(a) == Some(j) {
        ActorSnapshot(w, a);
      }
      if IsRow(Apply(w, a), after.event, after.snap) {
        assert RowQuoted(Apply(w, a), quote, after.event);
      } else {
        OldSnapshotStaysQuoted(w, a, quote, before, after);
      }
    }
  }

  lemma StepKeepsQuotes(w: World, a: Action, quote: EventId -> PaymentHash)
    requires A.Valid(w.accounts) && HashesQuoted(w, quote) && Enabled(w, a)
    requires a.ReserveFor? ==> a.hash == quote(a.event)
    ensures HashesQuoted(Apply(w, a), quote)
  {
    var w' := Apply(w, a);
    forall e | e in w'.accounts.attempts
      ensures RowQuoted(w', quote, e)
    {
      RowsHaveOrigins(w, a, e);
      assert RowQuoted(w, quote, e);
    }
    forall j | j in w'.agents
      ensures AgentQuoted(w', quote, w'.agents[j])
    {
      OnlyActorMoves(w, a);
      assert AgentQuoted(w, quote, AgentOf(w, j));
      AgentStaysQuoted(w, a, quote, j);
    }
  }

  lemma {:induction false} RunKeepsQuotes(w: World, actions: seq<Action>, quote: EventId -> PaymentHash)
    requires Books(w) && HashesQuoted(w, quote) && Run(w, actions) && Quoted(actions, quote)
    ensures HashesQuoted(After(w, actions), quote)
    decreases |actions|
  {
    if actions != [] {
      assert actions[0] in actions;
      StepKeepsQuotes(w, actions[0], quote);
      StepKeepsBooks(w, actions[0]);
      assert forall a <- actions[1..] :: a in actions;
      RunKeepsQuotes(Apply(w, actions[0]), actions[1..], quote);
    }
  }

  // ---- The two directions ----

  /** After a marker on a foreign row the process may call the wallet and leave a live key without an attempt. */
  lemma ForeignMarkUncovers(w: World, a: Action, quote: EventId -> PaymentHash)
    requires Enabled(w, a) && ArmsByMarker(w, a) && !MarksOwnRow(w, a)
    requires AgentOk(w, AgentOf(w, a.i)) && AgentQuoted(w, quote, AgentOf(w, a.i))
    requires var e := AgentOf(w, a.i).event;
             && (e in w.accounts.attempts ==> A.Lookup(w.accounts, w.accounts.attempts[e].hash) == Some(w.accounts.attempts[e]))
             && (e in w.accounts.attempts ==> w.accounts.byHash[w.accounts.attempts[e].hash] == e)
             && (e in w.wallet ==> e in w.accounts.attempts)
    ensures var e, call := AgentOf(w, a.i).event, Start(a.i, Err(TimedOut), Submitted);
            && Enabled(Apply(w, a), call) && !Revives(Apply(w, a), call)
            && Live(Apply(Apply(w, a), call), e) && e !in Apply(Apply(w, a), call).accounts.attempts
    ensures !StartsSafely(Apply(w, a))
  {
    MarkArms(w, a);
    CallWithoutRowUncovers(Apply(w, a), a.i);
  }

  lemma MarkArms(w: World, a: Action)
    requires Enabled(w, a) && ArmsByMarker(w, a)
    ensures AgentOf(Apply(w, a), a.i) == Armed(AgentOf(w, a.i).event, AgentOf(w, a.i).snap)
    ensures Apply(w, a).accounts.attempts.Keys == w.accounts.attempts.Keys
    ensures Apply(w, a).wallet == w.wallet && Apply(w, a).orders == w.orders
  {
  }

  lemma CallWithoutRowUncovers(w: World, i: nat)
    requires AgentOf(w, i).Armed? && AgentOf(w, i).event in w.orders
    requires AgentOf(w, i).event !in w.accounts.attempts && AgentOf(w, i).event !in w.wallet
    ensures var e, call := AgentOf(w, i).event, Start(i, Err(TimedOut), Submitted);
            Enabled(w, call) && !Revives(w, call) && Live(Apply(w, call), e) && e !in Apply(w, call).accounts.attempts
    ensures !StartsSafely(w)
  {
    var e, end := AgentOf(w, i).event, Apply(w, Start(i, Err(TimedOut), Submitted));
    assert Live(end, e) && !Covered(end, e) && !AllCovered(end);
  }

  /** From an invariant state every permitted call leaves all payments covered. */
  lemma InvStartsSafely(w: World)
    requires Inv(w) && Books(w)
    ensures StartsSafely(w)
  {
    forall k | k in w.wallet
      ensures Live(w, k) ==> Covered(w, k)
    {
      InvCovers(w, k);
    }
    forall i, reply, phase | Enabled(w, Start(i, reply, phase)) && !Revives(w, Start(i, reply, phase))
      ensures AllCovered(Apply(w, Start(i, reply, phase)))
    {
      var a := Start(i, reply, phase);
      StepKeepsInv(w, a);
      StepKeepsBooks(w, a);
      forall k | k in Apply(w, a).wallet
        ensures Live(Apply(w, a), k) ==> Covered(Apply(w, a), k)
      {
        InvCovers(Apply(w, a), k);
      }
    }
  }

  /** A step after which every next call is safe was guarded, when the steps before it were. */
  lemma SafeStartsGuardStep(start: World, before: seq<Action>, a: Action, quote: EventId -> PaymentHash)
    requires Init(start) && GuardedRun(start, before) && Run(start, before) && Quoted(before, quote)
    requires Enabled(After(start, before), a) && StartsSafely(Apply(After(start, before), a))
    ensures MarksOwnRow(After(start, before), a)
  {
    InitIsInv(start);
    GuardedRunKeepsInv(start, before);
    RunKeepsQuotes(start, before, quote);
    var w := After(start, before);
    if !MarksOwnRow(w, a) {
      var agent := AgentOf(w, a.i);
      assert AgentOk(w, agent) && AgentQuoted(w, quote, agent);
      assert agent.event in w.wallet ==> KeyOk(w, agent.event);
      if agent.event in w.accounts.attempts {
        A.OwnRow(w.accounts, agent.event);
      }
      ForeignMarkUncovers(w, a, quote);
    }
  }

  lemma {:induction false} SafeStartsGuardRun(start: World, actions: seq<Action>, quote: EventId -> PaymentHash, n: nat)
    requires Init(start) && StickyRun(start, actions) && Quoted(actions, quote) && n <= |actions|
    requires Run(start, actions)
    requires forall m: nat :: m <= |actions| ==> Run(start, actions[..m]) && StartsSafely(After(start, actions[..m]))
    ensures GuardedRun(start, actions[..n])
    decreases n
  {
    if n > 0 {
      var before, a := actions[..n - 1], actions[n - 1];
      SafeStartsGuardRun(start, actions, quote, n - 1);
      PrefixRuns(start, actions, n - 1);
      StickyAt(start, actions, n - 1);
      assert Quoted(before, quote) by {
        assert forall b <- before :: b in actions;
      }
      assert StartsSafely(After(start, actions[..n]));
      SafeStartsGuardStep(start, before, a, quote);
      GuardedExtends(start, before, a);
      assert before + [a] == actions[..n];
    }
  }

  /**
   The exact condition, over every run of a documented wallet from any initial ledger: payments are
   covered in every state of the run, and after every call that could be made next, if and only if each
   marker that arms a process in the run is on the row of that process's own event.
   */
  lemma CoverageHoldsExactly(start: World, actions: seq<Action>, quote: EventId -> PaymentHash)
    requires Init(start) && StickyRun(start, actions) && Quoted(actions, quote)
    ensures Run(start, actions)
    ensures forall n: nat :: n <= |actions| ==> Run(start, actions[..n])
    ensures OwnMarkRun(start, actions)
            <==> forall n: nat :: n <= |actions| ==> StartsSafely(After(start, actions[..n]))
  {
    StickyRunIsRun(start, actions);
    StickyGuardIsOwnMarks(start, actions);
    forall n: nat | n <= |actions|
      ensures Run(start, actions[..n])
    {
      PrefixRuns(start, actions, n);
    }
    if GuardedRun(start, actions) {
      InitIsInv(start);
      forall n: nat | n <= |actions|
        ensures StartsSafely(After(start, actions[..n]))
      {
        GuardedPrefix(start, actions, n);
        GuardedRunKeepsInv(start, actions[..n]);
        InvStartsSafely(After(start, actions[..n]));
      }
    }
    if forall n: nat :: n <= |actions| ==> StartsSafely(After(start, actions[..n])) {
      SafeStartsGuardRun(start, actions, quote, |actions|);
      assert actions[..|actions|] == actions;
    }
  }

  /** Quiet runs meet the condition: no release falls between a process's reading of a reservation and its marker. */
  lemma QuietRunsMeetTheCondition(start: World, actions: seq<Action>)
    requires Init(start) && QuietRun(start, actions)
    ensures GuardedRun(start, actions)
  {
    InitIsInv(start);
    QuietRunIsGuarded(start, actions);
  }
}
