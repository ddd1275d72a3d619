/**
 When a wallet call is made under a live authorization. The engine rechecks the authorization, writes the
 marker and then awaits the wallet, so the answer is exact only relative to that recheck.
 */
module PaymentAuthorization {
  import opened Types
  import opened Payments
  import opened PaymentSafety
  import opened PaymentExactness
  import R = PaymentResults
  import A = Accounting

  /** The world before step `n` of a run. */
  ghost function At(start: World, actions: seq<Action>, n: nat): World
    requires Run(start, actions) && n <= |actions|
  {
    PrefixRuns(start, actions, n);
    After(start, actions[..n])
  }

  /** The connection's row is at this revision and active. */
  predicate ActiveRevision(w: World, connection: ConnectionId, revision: nat) {
    connection in w.grants && w.grants[connection].revision == revision && w.grants[connection].active
  }

  /** Step `k` is the recheck after which process `i` stands cleared at `m`, and it took no step in between. */
  ghost predicate ClearedAt(start: World, actions: seq<Action>, k: nat, m: nat, i: nat)
    requires Run(start, actions)
  {
    && k < m <= |actions| && actions[k] == Authorize(i)
    && var checked, cleared := AgentOf(At(start, actions, k), i), AgentOf(At(start, actions, m), i);
    && checked.Checked? && cleared == Cleared(checked.event, checked.snap)
    && ActiveRevision(At(start, actions, k), checked.snap.connection, checked.snap.revision)
    && forall j :: k < j < m ==> Actor(actions[j]) != Some(i)
  }

  /** Recheck at `k`, marker at `m`, and the same attempt ready for its wallet call at `n`. */
  ghost predicate ArmedAt(start: World, actions: seq<Action>, k: nat, m: nat, n: nat, i: nat)
    requires Run(start, actions)
  {
    && m < n <= |actions| && actions[m].Mark? && actions[m].i == i && ClearedAt(start, actions, k, m, i)
    && var cleared := AgentOf(At(start, actions, m), i);
    && AgentOf(At(start, actions, n), i) == Armed(cleared.event, cleared.snap)
    && forall j :: m < j < n ==> Actor(actions[j]) != Some(i)
  }

  lemma OwnStepToCleared(w: World, a: Action, i: nat)
    requires Enabled(w, a) && AgentOf(Apply(w, a), i).Cleared?
    ensures Actor(a) != Some(i) ==> AgentOf(w, i) == AgentOf(Apply(w, a), i)
    ensures Actor(a) == Some(i) ==>
      var checked := AgentOf(w, i);
      && a == Authorize(i) && checked.Checked? && AgentOf(Apply(w, a), i) == Cleared(checked.event, checked.snap)
      && ActiveRevision(w, checked.snap.connection, checked.snap.revision)
  {
    OnlyActorMoves(w, a);
  }

  lemma OwnStepToArmed(w: World, a: Action, i: nat)
    requires Enabled(w, a) && AgentOf(Apply(w, a), i).Armed?
    ensures Actor(a) != Some(i) ==> AgentOf(w, i) == AgentOf(Apply(w, a), i)
    ensures Actor(a) == Some(i) ==>
      var cleared := AgentOf(w, i);
      a.Mark? && a.i == i && cleared.Cleared? && AgentOf(Apply(w, a), i) == Armed(cleared.event, cleared.snap)
  {
    OnlyActorMoves(w, a);
  }

  lemma {:induction false} ClearedWasChecked(start: World, actions: seq<Action>, m: nat, i: nat)
    requires Run(start, actions) && m <= |actions|
    requires !AgentOf(start, i).Cleared? && AgentOf(At(start, actions, m), i).Cleared?
    ensures exists k: nat :: ClearedAt(start, actions, k, m, i)
    decreases m
  {
    assert actions[..0] == [];
    if m > 0 {
      PrefixRuns(start, actions, m - 1);
      OwnStepToCleared(At(start, actions, m - 1), actions[m - 1], i);
      if Actor(actions[m - 1]) == Some(i) {
        assert ClearedAt(start, actions, m - 1, m, i);
      } else {
        ClearedWasChecked(start, actions, m - 1, i);
        var k: nat :| ClearedAt(start, actions, k, m - 1, i);
        assert ClearedAt(start, actions, k, m, i);
      }
    }
  }

  lemma {:induction false} ArmedWasMarked(start: World, actions: seq<Action>, n: nat, i: nat)
    requires Run(start, actions) && n <= |actions|
    requires AgentOf(start, i).Idle? && AgentOf(At(start, actions, n), i).Armed?
    ensures exists k: nat, m: nat :: ArmedAt(start, actions, k, m, n, i)
    decreases n
  {
    assert actions[..0] == [];
    if n > 0 {
      PrefixRuns(start, actions, n - 1);
      OwnStepToArmed(At(start, actions, n - 1), actions[n - 1], i);
      if Actor(actions[n - 1]) == Some(i) {
        ClearedWasChecked(start, actions, n - 1, i);
        var k: nat :| ClearedAt(start, actions, k, n - 1, i);
        assert ArmedAt(start, actions, k, n - 1, n, i);
      } else {
        ArmedWasMarked(start, actions, n - 1, i);
        var k: nat, m: nat :| ArmedAt(start, actions, k, m, n - 1, i);
        assert ArmedAt(start, actions, k, m, n, i);
      }
    }
  }

  // ---- Revocations since the recheck ----

  lemma StepMovesRevision(w: World, a: Action, connection: ConnectionId, revision: nat)
    requires Enabled(w, a) && connection in w.grants
    ensures connection in Apply(w, a).grants
    ensures ActiveRevision(Apply(w, a), connection, revision) <==> ActiveRevision(w, connection, revision) && a != Revoke(connection)
  {
    if !a.Issue? && !a.Revoke? {
      GrantsStay(w, a);
    }
  }

  lemma GrantsStay(w: World, a: Action)
    requires Enabled(w, a) && !a.Issue? && !a.Revoke?
    ensures Apply(w, a).grants == w.grants
  {
  }

  lemma {:induction false} RevocationsDecide(start: World, actions: seq<Action>, k: nat, n: nat, connection: ConnectionId, revision: nat)
    requires Run(start, actions) && k <= n <= |actions| && ActiveRevision(At(start, actions, k), connection, revision)
    ensures connection in At(start, actions, n).grants
    ensures ActiveRevision(At(start, actions, n), connection, revision) <==> Revoke(connection) !in actions[k..n]
    decreases n
  {
    if k < n {
      var before, a := At(start, actions, n - 1), actions[n - 1];
      RevocationsDecide(start, actions, k, n - 1, connection, revision);
      PrefixRuns(start, actions, n - 1);
      StepMovesRevision(before, a, connection, revision);
      assert At(start, actions, n) == Apply(before, a);
      assert actions[k..n] == actions[k..n - 1] + [a];
    }
  }

  /**
   Every wallet call of every run comes after the same process rechecked the attempt's exact authorization
   and then wrote its marker, in this order and with no other step of that process in between. The call is
   made under a live authorization if and only if no revocation of the connection committed since the recheck.
   */
  lemma CallIsAuthorizedExactly(start: World, actions: seq<Action>, n: nat)
    requires Init(start) && Run(start, actions) && n < |actions| && actions[n].Start?
    ensures exists k: nat, m: nat ::
      && ArmedAt(start, actions, k, m, n, actions[n].i)
      && var snap := AgentOf(At(start, actions, n), actions[n].i).snap;
      && (ActiveRevision(At(start, actions, n), snap.connection, snap.revision) <==> Revoke(snap.connection) !in actions[k..n])
  {
    var i := actions[n].i;
    PrefixRuns(start, actions, n);
    ArmedWasMarked(start, actions, n, i);
    var k: nat, m: nat :| ArmedAt(start, actions, k, m, n, i);
    var snap := AgentOf(At(start, actions, n), i).snap;
    RevocationsDecide(start, actions, k, n, snap.connection, snap.revision);
  }

  // ---- What a call goes back to ----

  /** Step `h` is what let process `i` go on with its loaded attempt: an unknown status, or an own marker without one. */
  ghost predicate AskedAt(start: World, actions: seq<Action>, h: nat, k: nat, i: nat)
    requires Run(start, actions)
  {
    && h < k <= |actions|
    && var loaded, checked := AgentOf(At(start, actions, h), i), AgentOf(At(start, actions, k), i);
    && loaded.Loaded? && checked == Checked(loaded.event, loaded.snap)
    && (actions[h] == Inquire(i, Ok(Unknown))
        || (actions[h] == ResumeBlind(i) && loaded.snap.state == A.Reserved && loaded.snap.initiatedAt.Some?))
    && forall j :: h < j < k ==> Actor(actions[j]) != Some(i)
  }

  lemma OwnStepToChecked(w: World, a: Action, i: nat)
    requires Enabled(w, a) && AgentOf(Apply(w, a), i).Checked?
    ensures Actor(a) != Some(i) ==> AgentOf(w, i) == AgentOf(Apply(w, a), i)
    ensures Actor(a) == Some(i) ==>
      var loaded := AgentOf(w, i);
      && loaded.Loaded? && AgentOf(Apply(w, a), i) == Checked(loaded.event, loaded.snap)
      && (a == Inquire(i, Ok(Unknown))
          || (a == ResumeBlind(i) && loaded.snap.state == A.Reserved && loaded.snap.initiatedAt.Some?))
  {
    OnlyActorMoves(w, a);
  }

  lemma {:induction false} CheckedWasAsked(start: World, actions: seq<Action>, k: nat, i: nat)
    requires Run(start, actions) && k <= |actions|
    requires !AgentOf(start, i).Checked? && AgentOf(At(start, actions, k), i).Checked?
    ensures exists h: nat :: AskedAt(start, actions, h, k, i)
    decreases k
  {
    assert actions[..0] == [];
    if k > 0 {
      PrefixRuns(start, actions, k - 1);
      OwnStepToChecked(At(start, actions, k - 1), actions[k - 1], i);
      if Actor(actions[k - 1]) == Some(i) {
        assert AskedAt(start, actions, k - 1, k, i);
      } else {
        CheckedWasAsked(start, actions, k - 1, i);
        var h: nat :| AskedAt(start, actions, h, k - 1, i);
        assert AskedAt(start, actions, h, k, i);
      }
    }
  }

  /** A process that may still call the wallet holds an attempt of its event's own authorization. */
  predicate OwnAuthorization(w: World, agent: Agent) {
    agent.Loaded? || agent.Checked? || agent.Cleared? || agent.Armed? ==>
      && agent.event in w.orders
      && agent.snap.connection == w.orders[agent.event].connection && agent.snap.revision == w.orders[agent.event].revision
  }

  lemma LoadedIsOwn(w: World, i: nat, event: EventId)
    requires AgentOf(w, i).Idle? && event in w.orders
    ensures OwnAuthorization(w, AgentOf(DoLoad(w, i, event), i))
  {
  }

  lemma ReservedIsOwn(w: World, a: Action)
    requires A.Valid(w.accounts) && Enabled(w, a) && a.ReserveFor?
    ensures OwnAuthorization(w, AgentOf(Apply(w, a), a.i))
  {
    var order := w.orders[a.event];
    A.ReserveWrites(w.accounts, w.grants, a.event, a.hash, order.connection, order.revision, a.principal, a.now);
  }

  lemma CarriedIsOwn(w: World, a: Action)
    requires Enabled(w, a) && Actor(a).Some? && !a.Load? && !a.ReserveFor? && OwnAuthorization(w, AgentOf(w, a.i))
    ensures OwnAuthorization(w, AgentOf(Apply(w, a), a.i))
  {
    if a.Mark? || a.Start? || a.Record? || a.RecordUncertain? || a.Release? {
      WrittenIsOwn(w, a);
    }
  }

  lemma WrittenIsOwn(w: World, a: Action)
    requires Enabled(w, a) && (a.Mark? || a.Start? || a.Record? || a.RecordUncertain? || a.Release?)
    requires OwnAuthorization(w, AgentOf(w, a.i))
    ensures OwnAuthorization(w, AgentOf(Apply(w, a), a.i))
  {
  }

  lemma {:induction false} AuthorizationIsOwn(start: World, actions: seq<Action>, n: nat, i: nat)
    requires Books(start) && Run(start, actions) && n <= |actions| && AgentOf(start, i).Idle?
    ensures At(start, actions, n).orders == start.orders && Books(At(start, actions, n))
    ensures OwnAuthorization(start, AgentOf(At(start, actions, n), i))
    decreases n
  {
    assert actions[..0] == [];
    if n > 0 {
      var w, a := At(start, actions, n - 1), actions[n - 1];
      AuthorizationIsOwn(start, actions, n - 1, i);
      PrefixRuns(start, actions, n - 1);
      StepKeepsBooks(w, a);
      OnlyActorMoves(w, a);
      if Actor(a) == Some(i) {
        if a.Load? {
          LoadedIsOwn(w, i, a.event);
        } else if a.ReserveFor? {
          ReservedIsOwn(w, a);
        } else {
          CarriedIsOwn(w, a);
        }
      }
    }
  }

  /**
   Every wallet call of every run is for an attempt of the event's own authorization, and goes back to a status
   answer that the payment is unknown, or to a marker that was found without a recorded status; the recheck, the
   marker and the call follow it, each the process's next step.
   */
  lemma CallFollowsUnknownStatus(start: World, actions: seq<Action>, n: nat)
    requires Init(start) && Run(start, actions) && n < |actions| && actions[n].Start?
    ensures exists h: nat, k: nat, m: nat ::
      AskedAt(start, actions, h, k, actions[n].i) && ArmedAt(start, actions, k, m, n, actions[n].i)
    ensures var armed := AgentOf(At(start, actions, n), actions[n].i);
            armed.Armed? && OwnAuthorization(start, armed)
  {
    var i := actions[n].i;
    PrefixRuns(start, actions, n);
    InitIsInv(start);
    ArmedWasMarked(start, actions, n, i);
    var k: nat, m: nat :| ArmedAt(start, actions, k, m, n, i);
    CheckedWasAsked(start, actions, k, i);
    var h: nat :| AskedAt(start, actions, h, k, i);
    AuthorizationIsOwn(start, actions, n, i);
  }

  // ---- A call after a revocation ----

  /** Reservation, status, recheck and marker; then a revocation, then the call. */
  const SAMPLE_RUN: seq<Action> := [
    ReserveFor(0, 1, 7, 1, 0), Inquire(0, Ok(Unknown)), Authorize(0), Mark(0, 0), Revoke(0),
    Start(0, Err(TimedOut), Submitted)]

  /** The world after the first `k` actions, up to the call. */
  function SampleAt(k: nat): World {
    var reserved, t := R.SampleStage(1), R.SampleAttempt(1);
    var marked := reserved.(accounts := R.SampleAccounts(1).(attempts := map[1 := t.(initiatedAt := Some(0))]),
                            agents := map[0 := Armed(1, t)]);
    match k
    case 0 => R.SampleStage(0)
    case 1 => reserved
    case 2 => reserved.(agents := map[0 := Checked(1, t)])
    case 3 => reserved.(agents := map[0 := Cleared(1, t)])
    case 4 => marked
    case _ => DoRevoke(marked, 0)
  }

  lemma SampleIsChecked()
    ensures R.Leads(SampleAt(1), SAMPLE_RUN[1], SampleAt(2))
    ensures R.Leads(SampleAt(2), SAMPLE_RUN[2], SampleAt(3))
  {
  }

  lemma SampleIsMarked()
    ensures R.Leads(SampleAt(3), SAMPLE_RUN[3], SampleAt(4))
  {
    assert A.MarkInitiated(SampleAt(3).accounts, 7, 0).0 == SampleAt(4).accounts;
  }

  lemma SampleIsRevoked()
    ensures R.Leads(SampleAt(4), SAMPLE_RUN[4], SampleAt(5)) && Enabled(SampleAt(5), SAMPLE_RUN[5])
    ensures AgentOf(SampleAt(5), 0) == Armed(1, R.SampleAttempt(1)) && !ActiveRevision(SampleAt(5), 0, 0)
  {
  }

  lemma SampleLeads(k: nat)
    requires k < 5
    ensures R.Leads(SampleAt(k), SAMPLE_RUN[k], SampleAt(k + 1))
  {
    match k
    case 0 => R.SampleReserve();
    case 1 => SampleIsChecked();
    case 2 => SampleIsChecked();
    case 3 => SampleIsMarked();
    case 4 => SampleIsRevoked();
  }

  lemma {:induction false} SampleReaches(k: nat)
    requires k <= 5
    ensures Run(SampleAt(0), SAMPLE_RUN[..k]) && After(SampleAt(0), SAMPLE_RUN[..k]) == SampleAt(k)
    decreases k
  {
    if k == 0 {
      assert SAMPLE_RUN[..0] == [];
    } else {
      SampleReaches(k - 1);
      SampleLeads(k - 1);
      ExtendRun(SampleAt(0), SAMPLE_RUN[..k - 1], SAMPLE_RUN[k - 1]);
      assert SAMPLE_RUN[..k - 1] + [SAMPLE_RUN[k - 1]] == SAMPLE_RUN[..k];
    }
  }

  /** A run from an empty ledger whose wallet call is made although its authorization is revoked by then. */
  lemma CallMayFollowRevocation()
    ensures Init(SampleAt(0)) && Run(SampleAt(0), SAMPLE_RUN)
    ensures var w := At(SampleAt(0), SAMPLE_RUN, 5);
            && SAMPLE_RUN[5].Start? && AgentOf(w, 0).Armed?
            && !ActiveRevision(w, AgentOf(w, 0).snap.connection, AgentOf(w, 0).snap.revision)
  {
    R.SampleWorldIsFresh();
    SampleReaches(5);
    SampleIsRevoked();
    ExtendRun(SampleAt(0), SAMPLE_RUN[..5], SAMPLE_RUN[5]);
    assert SAMPLE_RUN[..5] + [SAMPLE_RUN[5]] == SAMPLE_RUN;
  }
}
