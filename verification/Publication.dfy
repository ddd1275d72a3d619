/**
 When a stored response goes out under a live authorization. The engine looks at the authorization once
 and then awaits the relay, so the answer is exact only relative to that look.
 */
module Publication {
  import opened Types
  import opened Execution
  import L = Ledger

  // ---- Points of a run ----

  lemma {:induction false} PrefixRuns(w: World, actions: seq<Action>, n: nat)
    requires Run(w, actions) && n <= |actions|
    ensures Run(w, actions[..n])
    ensures n < |actions| ==>
      && Enabled(After(w, actions[..n]), actions[n])
      && Run(w, actions[..n + 1])
      && After(w, actions[..n + 1]) == Apply(After(w, actions[..n]), actions[n])
    decreases n
  {
    if n > 0 {
      assert actions[..n][0] == actions[0] && actions[..n][1..] == actions[1..][..n - 1];
      PrefixRuns(Apply(w, actions[0]), actions[1..], n - 1);
      if n < |actions| {
        assert actions[..n + 1][0] == actions[0] && actions[..n + 1][1..] == actions[1..][..n];
      }
    } else if |actions| > 0 {
      assert actions[..1][1..] == [];
    }
  }

  /** The world before step `n` of a run. */
  ghost function At(start: World, actions: seq<Action>, n: nat): World
    requires Run(start, actions) && n <= |actions|
  {
    PrefixRuns(start, actions, n);
    After(start, actions[..n])
  }

  /** The authorization row of the request is at its revision and active. */
  predicate Active(w: World, wake: Wake) {
    && wake.connection in w.store.authorities
    && w.store.authorities[wake.connection].revision == wake.revision
    && w.store.authorities[wake.connection].active
  }

  // ---- The look before a publication ----

  /**
   Step `m` is the look of process `i` after which it stands ready to publish at `n`: the same request and
   response, the exact authorization active then, and no other step of that process in between.
   */
  ghost predicate LookedAt(start: World, actions: seq<Action>, m: nat, n: nat, i: nat)
    requires Run(start, actions)
  {
    && m < n <= |actions| && actions[m] == Confirm(i)
    && var looking, ready := AgentOf(At(start, actions, m), i), AgentOf(At(start, actions, n), i);
    && looking.Holding? && ready == Sending(looking.wake, looking.json, looking.round, looking.deadline)
    && Active(At(start, actions, m), looking.wake)
    && forall k :: m < k < n ==> Actor(actions[k]) != Some(i)
  }

  /** The authorization is still active exactly if no revocation of its connection committed since the look. */
  ghost predicate ActiveUnlessRevoked(start: World, actions: seq<Action>, m: nat, n: nat, wake: Wake)
    requires Run(start, actions) && m <= n <= |actions|
  {
    && wake.connection in At(start, actions, n).store.authorities
    && (Active(At(start, actions, n), wake) <==> Revoke(wake.connection) !in actions[m..n])
  }

  lemma LedgerStepMovesAuthority(s: L.Store, a: L.Action, wake: Wake)
    requires L.Enabled(s, a) && wake.connection in s.authorities
    ensures wake.connection in L.AuthoritiesAfter(s, a)
    ensures L.IsActive(L.AuthoritiesAfter(s, a), wake.connection, wake.revision)
       <==> L.IsActive(s.authorities, wake.connection, wake.revision) && a != L.Revoke(wake.connection)
  {
  }

  lemma TransactionIsEnabled(w: World, a: Action)
    requires Enabled(w, a) && Transaction(w, a).Some?
    ensures L.Enabled(w.store, Transaction(w, a).value)
    ensures forall c :: Transaction(w, a).value == L.Revoke(c) <==> a == Revoke(c)
  {
  }

  lemma StepMovesAuthority(w: World, a: Action, wake: Wake)
    requires Enabled(w, a) && wake.connection in w.store.authorities
    ensures wake.connection in Apply(w, a).store.authorities
    ensures Active(Apply(w, a), wake) <==> Active(w, wake) && a != Revoke(wake.connection)
  {
    var t := Transaction(w, a);
    if t.Some? {
      TransactionIsEnabled(w, a);
      LedgerStepMovesAuthority(w.store, t.value, wake);
      assert Apply(w, a).store.authorities == L.AuthoritiesAfter(w.store, t.value);
    }
  }

  lemma AuthorityAt(start: World, actions: seq<Action>, n: nat, wake: Wake)
    requires Run(start, actions) && n < |actions| && wake.connection in At(start, actions, n).store.authorities
    ensures wake.connection in At(start, actions, n + 1).store.authorities
    ensures Active(At(start, actions, n + 1), wake) <==> Active(At(start, actions, n), wake) && actions[n] != Revoke(wake.connection)
  {
    PrefixRuns(start, actions, n);
    StepMovesAuthority(At(start, actions, n), actions[n], wake);
  }

  lemma {:induction false} RevocationsDecide(start: World, actions: seq<Action>, m: nat, n: nat, wake: Wake)
    requires Run(start, actions) && m <= n <= |actions| && Active(At(start, actions, m), wake)
    ensures ActiveUnlessRevoked(start, actions, m, n, wake)
    decreases n
  {
    if m < n {
      RevocationsDecide(start, actions, m, n - 1, wake);
      AuthorityAt(start, actions, n - 1, wake);
      assert actions[m..n] == actions[m..n - 1] + [actions[n - 1]];
    }
  }

  lemma OwnStepToSending(w: World, a: Action, i: nat)
    requires Enabled(w, a) && AgentOf(Apply(w, a), i).Sending?
    ensures Actor(a) != Some(i) ==> AgentOf(w, i) == AgentOf(Apply(w, a), i)
    ensures Actor(a) == Some(i) ==>
      var looking := AgentOf(w, i);
      && a == Confirm(i) && looking.Holding? && Active(w, looking.wake)
      && AgentOf(Apply(w, a), i) == Sending(looking.wake, looking.json, looking.round, looking.deadline)
  {
  }

  lemma {:induction false} SenderLooked(start: World, actions: seq<Action>, n: nat, i: nat)
    requires Run(start, actions) && n <= |actions|
    requires !AgentOf(start, i).Sending? && AgentOf(At(start, actions, n), i).Sending?
    ensures exists m: nat :: LookedAt(start, actions, m, n, i)
    decreases n
  {
    assert actions[..0] == [];
    if n > 0 {
      PrefixRuns(start, actions, n - 1);
      OwnStepToSending(At(start, actions, n - 1), actions[n - 1], i);
      if Actor(actions[n - 1]) == Some(i) {
        assert LookedAt(start, actions, n - 1, n, i);
      } else {
        SenderLooked(start, actions, n - 1, i);
        var m: nat :| LookedAt(start, actions, m, n - 1, i);
        assert LookedAt(start, actions, m, n, i);
      }
    }
  }

  /**
   Every publication of every run follows a look by the same process at the same response that found the
   exact authorization active. It goes out under a live authorization if and only if no revocation of that
   connection committed between the look and the publication.
   */
  lemma PublicationIsAuthorizedExactly(start: World, actions: seq<Action>, n: nat)
    requires Init(start) && Run(start, actions) && n < |actions| && actions[n].Publish?
    ensures exists m: nat ::
      && LookedAt(start, actions, m, n, actions[n].i)
      && var wake := AgentOf(At(start, actions, n), actions[n].i).wake;
      && (Active(At(start, actions, n), wake) <==> Revoke(wake.connection) !in actions[m..n])
  {
    var i := actions[n].i;
    PrefixRuns(start, actions, n);
    SenderLooked(start, actions, n, i);
    var m: nat :| LookedAt(start, actions, m, n, i);
    RevocationsDecide(start, actions, m, n, AgentOf(At(start, actions, n), i).wake);
  }

  // ---- A publication after a revocation ----

  const SAMPLE_WAKE := Wake(1, 0, 0)

  const SAMPLE_DEADLINE: nat := 10 * NANOS_PER_SECOND

  const SAMPLE_LEASE := L.EventLease(1, 7, false, false)

  /** A new ledger with one active authorization. */
  function SampleWorld(createdAt: EventId -> nat): World {
    World(L.Store(map[], map[0 := L.Authority(0, true)], {}), FreshnessPolicy(60, 60), createdAt, map[], map[], 0, [])
  }

  function SampleRow(accepted: bool): L.EventRow {
    L.EventRow(0, 0, L.Claimed, Some(7), Some(11), 0, None, None, None, accepted)
  }

  function SampleStore(row: L.EventRow, active: bool): L.Store {
    L.Store(map[1 := row], map[0 := if active then L.Authority(0, true) else L.Authority(1, false)], {7})
  }

  /** Claim, freshness check, commit and look; then a revocation, then the publication. */
  const SAMPLE_RUN: seq<Action> := [
    Prepare(0, SAMPLE_WAKE, SAMPLE_DEADLINE), Claim(0, Some(7)), CheckTime(0), AcceptTime(0),
    Commit(0, "response", None), Confirm(0), Revoke(0), Publish(0)]

  /** The world after the first `k` actions. */
  function SampleAt(createdAt: EventId -> nat, k: nat): World {
    var w, d := SampleWorld(createdAt), SAMPLE_DEADLINE;
    var done := L.Finish(SampleRow(true), L.Completed, Some("response"), None, 0);
    var admitted, stored := [Admitted(1, 0, 0)], [Admitted(1, 0, 0), Stored(1, 0, "response")];
    match k
    case 0 => w
    case 1 => w.(agents := map[0 := Ready(SAMPLE_WAKE, d, 11 * NANOS_PER_SECOND)])
    case 2 => w.(store := SampleStore(SampleRow(false), true), agents := map[0 := Owner(Gating, SAMPLE_WAKE, SAMPLE_LEASE, 0, d)])
    case 3 => w.(store := SampleStore(SampleRow(false), true), agents := map[0 := Owner(Timely(0), SAMPLE_WAKE, SAMPLE_LEASE, 0, d)])
    case 4 => w.(store := SampleStore(SampleRow(true), true),
                 agents := map[0 := Owner(Working, SAMPLE_WAKE, SAMPLE_LEASE, 0, d)], history := admitted)
    case 5 => w.(store := SampleStore(done, true), agents := map[0 := Holding(SAMPLE_WAKE, "response", 0, d)], history := stored)
    case 6 => w.(store := SampleStore(done, true), agents := map[0 := Sending(SAMPLE_WAKE, "response", 0, d)],
                 history := stored + [Confirmed(1, 0)])
    case 7 => w.(store := SampleStore(done, false), agents := map[0 := Sending(SAMPLE_WAKE, "response", 0, d)],
                 history := stored + [Confirmed(1, 0)])
    case _ => w.(store := SampleStore(done, false), agents := map[0 := Idle],
                 history := stored + [Confirmed(1, 0), Sent(1, 0, "response")])
  }

  /** One enabled action leads from one world to another. */
  ghost predicate Leads(w: World, a: Action, w': World) {
    Enabled(w, a) && Apply(w, a) == w'
  }

  lemma SampleClaims(createdAt: EventId -> nat)
    ensures Leads(SampleAt(createdAt, 0), SAMPLE_RUN[0], SampleAt(createdAt, 1))
    ensures Leads(SampleAt(createdAt, 1), SAMPLE_RUN[1], SampleAt(createdAt, 2))
  {
    assert L.Expiry(0, 11 * NANOS_PER_SECOND) == Some(11);
  }

  lemma SampleIsAdmitted(createdAt: EventId -> nat)
    requires createdAt(1) == 0
    ensures Leads(SampleAt(createdAt, 2), SAMPLE_RUN[2], SampleAt(createdAt, 3))
    ensures Leads(SampleAt(createdAt, 3), SAMPLE_RUN[3], SampleAt(createdAt, 4))
  {
  }

  lemma SampleCommits(createdAt: EventId -> nat)
    ensures Leads(SampleAt(createdAt, 4), SAMPLE_RUN[4], SampleAt(createdAt, 5))
  {
  }

  lemma SampleIsConfirmed(createdAt: EventId -> nat)
    ensures Leads(SampleAt(createdAt, 5), SAMPLE_RUN[5], SampleAt(createdAt, 6))
  {
  }

  lemma SampleIsRevoked(createdAt: EventId -> nat)
    ensures Leads(SampleAt(createdAt, 6), SAMPLE_RUN[6], SampleAt(createdAt, 7))
    ensures Leads(SampleAt(createdAt, 7), SAMPLE_RUN[7], SampleAt(createdAt, 8))
  {
  }

  lemma SampleLeads(createdAt: EventId -> nat, k: nat)
    requires createdAt(1) == 0 && k < 8
    ensures Leads(SampleAt(createdAt, k), SAMPLE_RUN[k], SampleAt(createdAt, k + 1))
  {
    match k
    case 0 => SampleClaims(createdAt);
    case 1 => SampleClaims(createdAt);
    case 2 => SampleIsAdmitted(createdAt);
    case 3 => SampleIsAdmitted(createdAt);
    case 4 => SampleCommits(createdAt);
    case 5 => SampleIsConfirmed(createdAt);
    case _ => SampleIsRevoked(createdAt);
  }

  lemma {:induction false} SampleReaches(createdAt: EventId -> nat, k: nat)
    requires createdAt(1) == 0 && k <= 8
    ensures Run(SampleWorld(createdAt), SAMPLE_RUN[..k]) && After(SampleWorld(createdAt), SAMPLE_RUN[..k]) == SampleAt(createdAt, k)
    decreases k
  {
    if k == 0 {
      assert SAMPLE_RUN[..0] == [];
    } else {
      SampleReaches(createdAt, k - 1);
      SampleLeads(createdAt, k - 1);
      ExtendRun(SampleWorld(createdAt), SAMPLE_RUN[..k - 1], SAMPLE_RUN[k - 1]);
      assert SAMPLE_RUN[..k - 1] + [SAMPLE_RUN[k - 1]] == SAMPLE_RUN[..k];
    }
  }

  /**
   A run from a new ledger in which the look falls before a revocation and the publication after it: the
   response goes out although its authorization is revoked.
   */
  lemma PublicationMayFollowRevocation(createdAt: EventId -> nat)
    requires createdAt(1) == 0
    ensures Init(SampleWorld(createdAt)) && Run(SampleWorld(createdAt), SAMPLE_RUN)
    ensures SAMPLE_RUN[7] == Publish(0) && Sent(1, 0, "response") in After(SampleWorld(createdAt), SAMPLE_RUN).history
    ensures var w := At(SampleWorld(createdAt), SAMPLE_RUN, 7);
            AgentOf(w, 0).Sending? && AgentOf(w, 0).wake == SAMPLE_WAKE && !Active(w, SAMPLE_WAKE)
  {
    SampleReaches(createdAt, 7);
    SampleReaches(createdAt, 8);
    assert SAMPLE_RUN[..8] == SAMPLE_RUN;
    SampleEnds(createdAt);
  }

  lemma SampleEnds(createdAt: EventId -> nat)
    ensures Init(SampleAt(createdAt, 0)) && SampleAt(createdAt, 0) == SampleWorld(createdAt)
    ensures AgentOf(SampleAt(createdAt, 7), 0).Sending? && AgentOf(SampleAt(createdAt, 7), 0).wake == SAMPLE_WAKE
    ensures !Active(SampleAt(createdAt, 7), SAMPLE_WAKE)
    ensures Sent(1, 0, "response") in SampleAt(createdAt, 8).history
  {
    assert SampleAt(createdAt, 8).history[3] == Sent(1, 0, "response");
  }
}
