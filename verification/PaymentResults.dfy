/** Consequences of the payment invariant, and a run in which a marker lands on another event's row. */
module PaymentResults {
  import opened Types
  import opened Payments
  import opened PaymentSafety
  import opened PaymentOwners
  import A = Accounting
  import Budget

  // ---- One payment per hash, one request per event ----

  /** At most one event ever calls the wallet for a given payment hash. */
  lemma OneEventPerHash(start: World, actions: seq<Action>, j: EventId, k: EventId)
    requires Init(start) && GuardedRun(start, actions)
    ensures Run(start, actions)
    ensures var w := After(start, actions);
            j in w.wallet && k in w.wallet && w.wallet[j].hash == w.wallet[k].hash ==> j == k
  {
    InitIsInv(start);
    GuardedRunKeepsInv(start, actions);
    var w := After(start, actions);
    if j in w.wallet && k in w.wallet {
      assert KeyOk(w, j) && KeyOk(w, k);
      A.OwnRow(w.accounts, j);
      A.OwnRow(w.accounts, k);
    }
  }

  /**
   Every call for one event carries the same key, invoice, amount and fee cap; the cap is the
   fee the event's own reservation holds, and the durable marker is present.
   */
  lemma CallsAgree(start: World, actions: seq<Action>, m: nat, n: nat)
    requires Init(start) && GuardedRun(start, actions)
    ensures Run(start, actions)
    ensures var w := After(start, actions);
            m < |w.calls| && n < |w.calls| && w.calls[m].key == w.calls[n].key ==>
              && w.calls[m] == w.calls[n]
              && w.calls[m].key in w.accounts.attempts
              && w.accounts.attempts[w.calls[m].key].WasInitiated()
              && w.calls[m].maximumFee == w.accounts.attempts[w.calls[m].key].feeReserveSat
              && w.calls[m].key in w.orders
              && w.calls[m].invoice == w.orders[w.calls[m].key].invoice
              && w.calls[m].amount == w.orders[w.calls[m].key].amount
  {
    InitIsInv(start);
    GuardedRunKeepsInv(start, actions);
    var w := After(start, actions);
    if m < |w.calls| && n < |w.calls| {
      assert w.calls[m] in w.calls && w.calls[n] in w.calls;
      assert KeyOk(w, w.calls[m].key);
    }
  }

  /** A success response is prepared only for a key the wallet was called with and that is recorded as settled. */
  lemma SuccessIsOwnPayment(start: World, actions: seq<Action>, i: nat)
    requires Init(start) && GuardedRun(start, actions)
    ensures Run(start, actions)
    ensures var w := After(start, actions);
            AgentOf(w, i).Answering? && AgentOf(w, i).answer.PaidAnswer? ==>
              && AgentOf(w, i).event in w.wallet
              && AgentOf(w, i).event in w.accounts.attempts
              && w.accounts.attempts[AgentOf(w, i).event].state.Succeeded?
  {
    InitIsInv(start);
    GuardedRunKeepsInv(start, actions);
    var w := After(start, actions);
    assert AgentOk(w, AgentOf(w, i));
  }

  // ---- A run outside the condition ----

  const SAMPLE_GRANT := A.Grant(0, true, 0, Budget.Policy(1_000, Budget.Never, Budget.ExcludeForCompatibility), None, true)

  /** Two authenticated events that pay the same invoice, on an empty ledger. */
  function SampleWorld(): World {
    World(A.Accounts(map[], map[], map[]), map[], map[0 := SAMPLE_GRANT],
          map[1 := Order(0, 0, "invoice", None), 2 := Order(0, 0, "invoice", None)], map[], map[], [])
  }

  function SampleAttempt(e: EventId): A.Attempt {
    A.NewAttempt(e, 7, 0, 0, 0, 1, 0, 0)
  }

  /** The ledger while only `e` holds a reservation for hash 7. */
  function SampleAccounts(e: EventId): A.Accounts {
    A.Accounts(map[e := SampleAttempt(e)], map[7 := e], map[A.PeriodKey(0, 0) := A.Period(1_000, 1, 0)])
  }

  /** The ledger after event 1's reservation was released. */
  function SampleReleased(): A.Accounts {
    A.Accounts(map[], map[], map[A.PeriodKey(0, 0) := A.Period(1_000, 0, 0)])
  }

  /** The sample world at each point of the unquiet run. */
  function SampleStage(n: nat): World {
    var w, t1, t2 := SampleWorld(), SampleAttempt(1), SampleAttempt(2);
    var marked := SampleAccounts(2).(attempts := map[2 := t2.(initiatedAt := Some(0))]);
    match n
    case 0 => w
    case 1 => w.(accounts := SampleAccounts(1), agents := map[0 := Loaded(1, t1)])
    case 2 => w.(accounts := SampleAccounts(1), agents := map[0 := Loaded(1, t1), 1 := Reviewing(t1)])
    case 3 => w.(accounts := SampleAccounts(1), agents := map[0 := Checked(1, t1), 1 := Reviewing(t1)])
    case 4 => w.(accounts := SampleAccounts(1), agents := map[0 := Cleared(1, t1), 1 := Reviewing(t1)])
    case 5 => w.(accounts := SampleAccounts(1), agents := map[0 := Cleared(1, t1), 1 := Refused(1, 7)])
    case 6 => w.(accounts := SampleReleased(), agents := map[0 := Cleared(1, t1), 1 := Answering(1, DeclinedAnswer)])
    case 7 => w.(accounts := SampleAccounts(2),
                 agents := map[0 := Cleared(1, t1), 1 := Answering(1, DeclinedAnswer), 2 := Loaded(2, t2)])
    case _ => w.(accounts := marked,
                 agents := map[0 := Armed(1, t1), 1 := Answering(1, DeclinedAnswer), 2 := Loaded(2, t2)])
  }

  /** One enabled action leads from one world to another. */
  ghost predicate Leads(w: World, a: Action, w': World) {
    Enabled(w, a) && Apply(w, a) == w'
  }

  lemma SampleReserve()
    ensures Leads(SampleStage(0), ReserveFor(0, 1, 7, 1, 0), SampleStage(1))
  {
    var a, key := SampleStage(0).accounts, A.PeriodKey(0, 0);
    assert a.periods[key := A.Period(1_000, 1, 0)] == SampleAccounts(1).periods;
    assert A.Reserve(a, SampleStage(0).grants, 1, 7, 0, 0, 1, 0).0 == SampleAccounts(1);
  }

  lemma SampleReserveAgain()
    ensures Leads(SampleStage(6), ReserveFor(2, 2, 7, 1, 0), SampleStage(7))
  {
    var a, key := SampleStage(6).accounts, A.PeriodKey(0, 0);
    assert a.periods[key := A.Period(1_000, 1, 0)] == SampleAccounts(2).periods;
    assert A.Reserve(a, SampleStage(6).grants, 2, 7, 0, 0, 1, 0).0 == SampleAccounts(2);
  }

  lemma SampleCheck()
    ensures Leads(SampleStage(1), Review(1, 1), SampleStage(2))
    ensures Leads(SampleStage(2), Inquire(0, Ok(Unknown)), SampleStage(3))
  {
  }

  lemma SampleAuthorize()
    ensures Leads(SampleStage(3), Authorize(0), SampleStage(4))
    ensures Leads(SampleStage(4), ReviewStatus(1, Ok(InFlight)), SampleStage(5))
  {
  }

  lemma SampleReleaseTables()
    ensures A.ReleaseUninitiated(SampleAccounts(1), 7, 0) == (SampleReleased(), Ok(()))
  {
    var a, key := SampleAccounts(1), A.PeriodKey(0, 0);
    assert A.Lookup(a, 7) == Some(SampleAttempt(1));
    assert a.attempts - {1} == map[] && a.byHash - {7} == map[];
    assert a.periods[key := A.Period(1_000, 0, 0)] == SampleReleased().periods;
    assert A.AdjustPeriod(a.periods, key, 1, 0, 0) == Ok(SampleReleased().periods);
  }

  lemma SampleRelease()
    ensures Leads(SampleStage(5), Release(1, 0), SampleStage(6))
  {
    SampleReleaseTables();
  }

  lemma SampleMark()
    ensures Leads(SampleStage(7), Mark(0, 0), SampleStage(8))
  {
    assert A.MarkInitiated(SampleStage(7).accounts, 7, 0).0 == SampleStage(8).accounts;
  }

  function SampleEnd(): World {
    DoStart(SampleStage(8), 0, 1, SampleAttempt(1), Err(TimedOut), Submitted)
  }

  lemma SampleStart()
    ensures Leads(SampleStage(8), Start(0, Err(TimedOut), Submitted), SampleEnd())
    ensures 1 in SampleEnd().wallet && SampleEnd().wallet[1].phase.Submitted? && 1 !in SampleEnd().accounts.attempts
  {
  }

  function SampleAction(k: nat): Action {
    match k
    case 0 => ReserveFor(0, 1, 7, 1, 0)
    case 1 => Review(1, 1)
    case 2 => Inquire(0, Ok(Unknown))
    case 3 => Authorize(0)
    case 4 => ReviewStatus(1, Ok(InFlight))
    case 5 => Release(1, 0)
    case 6 => ReserveFor(2, 2, 7, 1, 0)
    case 7 => Mark(0, 0)
    case _ => Start(0, Err(TimedOut), Submitted)
  }

  /** The world after the first actions of the unquiet run. */
  function SampleAt(k: nat): World {
    if k < 9 then SampleStage(k) else SampleEnd()
  }

  lemma SampleLeads(k: nat)
    requires k < 9
    ensures Leads(SampleAt(k), SampleAction(k), SampleAt(k + 1))
  {
    match k
    case 0 => SampleReserve();
    case 1 => SampleCheck();
    case 2 => SampleCheck();
    case 3 => SampleAuthorize();
    case 4 => SampleAuthorize();
    case 5 => SampleRelease();
    case 6 => SampleReserveAgain();
    case 7 => SampleMark();
    case 8 => SampleStart();
  }

  lemma {:induction false} SampleRunFrom(k: nat) returns (actions: seq<Action>)
    requires k <= 9
    ensures Run(SampleAt(k), actions) && After(SampleAt(k), actions) == SampleEnd()
    decreases 9 - k
  {
    actions := [];
    if k < 9 {
      var rest := SampleRunFrom(k + 1);
      SampleLeads(k);
      actions := Prepend(SampleAt(k), SampleAction(k), SampleAt(k + 1), rest, SampleEnd());
    }
  }

  /**
   Coverage fails when a marker lands on a foreign row: a reconciler releases event 1's
   reservation after process 0 checked it, event 2 reserves the same hash, and process 0's
   marker lands on event 2's row before it calls the wallet for event 1.
   */
  lemma UnquietReleaseUncoversPayment() returns (actions: seq<Action>)
    ensures Init(SampleWorld()) && Run(SampleWorld(), actions)
    ensures var end := After(SampleWorld(), actions);
            1 in end.wallet && end.wallet[1].phase.Submitted? && 1 !in end.accounts.attempts
  {
    SampleWorldIsFresh();
    SampleStart();
    actions := SampleRunFrom(0);
  }

  lemma SampleWorldIsFresh()
    ensures SampleStage(0) == SampleWorld() && Init(SampleWorld())
  {
  }

  /** A step in front of a run is a run. */
  lemma Prepend(w: World, a: Action, w': World, rest: seq<Action>, end: World) returns (actions: seq<Action>)
    requires Leads(w, a, w') && Run(w', rest) && After(w', rest) == end
    ensures actions == [a] + rest && Run(w, actions) && After(w, actions) == end
  {
    actions := [a] + rest;
    assert actions[0] == a && actions[1..] == rest;
  }
}
