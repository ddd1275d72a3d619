/** What the registry keeps over every run of insertions, imports, revocations and wake-outbox work. */
module RegistrySafety {
  import opened Types
  import opened Registry
  import A = Accounting
  import Budget
  import L = Ledger

  // ---- The invariant ----

  ghost predicate ActiveOk(row: ConnectionRow) {
    && row.tombstonedAt.None?
    && row.methods != {} && DecodeMethods(row.methods).Ok? && DecodeMethods(row.methods).value != {}
    && 1 <= |row.relays| <= MAX_CONNECTION_RELAYS && Distinct(row.relays)
  }

  ghost predicate RowOk(row: ConnectionRow) {
    && 0 <= row.revision && 0 <= row.createdAt <= row.updatedAt && row.limitSat >= 0 && row.maximumFeeSat >= 0
    && (row.expiresAt.Some? ==> row.expiresAt.value > row.createdAt)
    && row.client.onCurve && row.wallet.onCurve && row.client != row.wallet
    && StrToEncryption(row.encryption).Ok? && StrToInterval(row.interval).Ok?
    && StrToFeePolicy(row.feePolicy, row.maximumFeeSat).Ok?
    && (row.status == "active" || row.status == "tombstoned")
    && (row.status == "active" ==> ActiveOk(row))
    && (row.status == "tombstoned" ==> row.tombstonedAt == Some(row.updatedAt) && row.methods == {} && row.relays == [])
  }

  /** A registration change is about the current revision; an active connection's change carries its relays. */
  ghost predicate WakeOk(t: Tables, id: ConnectionId)
    requires id in t.wakes
  {
    && id in t.connections
    && t.wakes[id].revision == t.connections[id].revision
    && t.wakes[id].client == t.connections[id].client && t.wakes[id].wallet == t.connections[id].wallet
    && (t.connections[id].status == "active" ==> t.wakes[id].relays == t.connections[id].relays)
    && (t.connections[id].status == "tombstoned" ==> !t.wakes[id].enabled)
    && 1 <= |t.wakes[id].relays| <= MAX_CONNECTION_RELAYS
  }

  ghost predicate Inv(t: Tables) {
    && (forall id <- t.connections :: RowOk(t.connections[id]))
    && (forall id <- t.wakes :: WakeOk(t, id))
    && (forall a <- t.connections, b <- t.connections ::
          t.connections[a].client == t.connections[b].client && t.connections[a].wallet == t.connections[b].wallet ==> a == b)
    && (forall key <- t.periods :: key.connection in t.connections)
  }

  lemma NewRowIsOk(c: NewConnection, createdAt: nat, now: nat, fee: (string, int))
    requires IsValid(c) && createdAt <= now && EncodeFeePolicy(c.policy.budget.feePolicy) == Ok(fee)
    requires c.expiresAt.Some? ==> c.expiresAt.value > createdAt
    ensures RowOk(RowOf(c, createdAt, now, fee))
  {
    ColumnsRoundTrip(c.encryption, c.policy.budget.interval, c.policy.budget.feePolicy, c.policy.methods);
  }

  lemma InsertKeepsInv(t: Tables, c: NewConnection, createdAt: nat, usedSat: nat, now: nat)
    requires Inv(t) && IsValid(c) && createdAt <= now
    ensures Inv(InsertState(t, c, createdAt, usedSat, now).0)
  {
    var (next, r) := InsertState(t, c, createdAt, usedSat, now);
    if r.Ok? {
      NewRowIsOk(c, createdAt, now, EncodeFeePolicy(c.policy.budget.feePolicy).value);
      assert c.id in t.wakes ==> WakeOk(t, c.id);
      forall id | id in next.wakes
        ensures WakeOk(next, id)
      {
        assert id != c.id ==> WakeOk(t, id);
      }
    }
  }

  /** While a connection is active its change already lists its relays, so revocation adds none. */
  lemma MergeOfSame(relays: seq<Relay>)
    ensures MergeIgnoring(relays, relays) == relays
  {
  }

  /** Replacing a row by its revoked form and its change by a disabled one. */
  lemma RevokedRowKeepsInv(t: Tables, next: Tables, id: ConnectionId, now: nat)
    requires Inv(t) && id in t.connections && t.connections[id].createdAt <= now
    requires next.connections == t.connections[id := Revoked(t.connections[id], now)] && next.periods == t.periods
    requires id in next.wakes && next.wakes == t.wakes[id := next.wakes[id]]
    requires WakeOk(next, id)
    ensures Inv(next)
  {
    RevokedRowIsOk(t.connections[id], now);
    forall d | d in next.wakes
      ensures WakeOk(next, d)
    {
      assert d != id ==> WakeOk(t, d);
    }
  }

  lemma RevokedRowIsOk(row: ConnectionRow, now: nat)
    requires RowOk(row) && row.createdAt <= now
    ensures RowOk(Revoked(row, now))
  {
  }

  lemma TombstoneKeepsInv(t: Tables, id: ConnectionId, expected: nat, now: nat)
    requires Inv(t)
    ensures Inv(Tombstone(t, id, expected, now).0)
  {
    if Tombstone(t, id, expected, now).1.Ok? {
      TombstoneWrites(t, id, expected, now);
      RevokedRowKeepsInv(t, Tombstone(t, id, expected, now).0, id, now);
    }
  }

  lemma TombstoneWrites(t: Tables, id: ConnectionId, expected: nat, now: nat)
    requires Inv(t) && Tombstone(t, id, expected, now).1.Ok?
    ensures var next := Tombstone(t, id, expected, now).0;
            && id in t.connections && t.connections[id].createdAt <= now
            && next.connections == t.connections[id := Revoked(t.connections[id], now)] && next.periods == t.periods
            && next.wakes == t.wakes[id := WakeRow(expected + 1, false, t.connections[id].client, t.connections[id].wallet,
                                                   0, now, now, t.connections[id].relays)]
            && WakeOk(next, id)
  {
    assert id in t.wakes ==> WakeOk(t, id);
    MergeOfSame(t.connections[id].relays);
    assert RowOk(t.connections[id]);
  }

  lemma RequeueKeepsInv(t: Tables, enabled: bool, now: nat)
    requires Inv(t)
    ensures Inv(Requeue(t, enabled, now).0)
  {
    var next := Requeue(t, enabled, now).0;
    forall id | id in next.wakes
      ensures WakeOk(next, id)
    {
      assert id in t.wakes ==> WakeOk(t, id);
    }
  }

  lemma WakeWorkKeepsInv(t: Tables, a: Action)
    requires Inv(t) && (a.AckWake? || a.DeferWake?)
    ensures Inv(Apply(t, a))
  {
    forall id | id in Apply(t, a).wakes
      ensures WakeOk(Apply(t, a), id)
    {
      assert WakeOk(t, id);
    }
  }

  lemma StepKeepsInv(t: Tables, a: Action)
    requires Inv(t) && Enabled(t, a)
    ensures Inv(Apply(t, a))
  {
    match a
    case Insert(c, now) => InsertKeepsInv(t, c, now, 0, now);
    case Import(c, createdAt, used, now) =>
      if createdAt <= now {
        InsertKeepsInv(t, c, createdAt, used, now);
      }
    case Revoke(id, expected, now) => TombstoneKeepsInv(t, id, expected, now);
    case RequeueAll(enabled, now) => RequeueKeepsInv(t, enabled, now);
    case _ => WakeWorkKeepsInv(t, a);
  }

  /** Active rows have methods and one to eight distinct relays, revoked rows have none, in every reachable state. */
  lemma {:induction false} RunKeepsInv(t: Tables, actions: seq<Action>)
    requires Inv(t) && Run(t, actions)
    ensures Inv(After(t, actions))
    decreases |actions|
  {
    if actions != [] {
      StepKeepsInv(t, actions[0]);
      RunKeepsInv(Apply(t, actions[0]), actions[1..]);
    }
  }

  /** Loading never meets a row it would call corrupt, in any reachable state. */
  lemma LoadNeverCorrupt(t: Tables, actions: seq<Action>, id: ConnectionId)
    requires Inv(t) && Run(t, actions)
    ensures Load(After(t, actions), id).Ok?
    ensures var loaded := Load(After(t, actions), id).value;
            loaded.Some? && loaded.value.Active? ==>
              && loaded.value.connection.policy.methods != {}
              && 1 <= |loaded.value.connection.relays| <= MAX_CONNECTION_RELAYS
              && Distinct(loaded.value.connection.relays)
  {
    RunKeepsInv(t, actions);
    var w := After(t, actions);
    if id in w.connections {
      assert RowOk(w.connections[id]);
    }
  }

  // ---- Rows over runs ----

  /** Each step leaves a known row alone or revokes it. */
  lemma StepTouchesRowOnlyToRevoke(t: Tables, a: Action, id: ConnectionId)
    requires id in t.connections
    ensures id in Apply(t, a).connections
    ensures Apply(t, a).connections[id] == t.connections[id]
            || (a.Revoke? && a.id == id && t.connections[id].status == "active" && t.connections[id].revision == a.expected
                && Apply(t, a).connections[id] == Revoked(t.connections[id], a.at))
  {
  }

  /** Revisions only grow, keys and limits never change, and a tombstone is final. */
  lemma {:induction false} RowsAreMonotone(t: Tables, actions: seq<Action>, id: ConnectionId)
    requires Run(t, actions) && id in t.connections
    ensures id in After(t, actions).connections
    ensures var before, after := t.connections[id], After(t, actions).connections[id];
            && before.revision <= after.revision
            && (before.status == "tombstoned" ==> after == before)
            && (before.revision == after.revision ==> after == before)
            && after.client == before.client && after.wallet == before.wallet && after.createdAt == before.createdAt
            && after.limitSat == before.limitSat
    decreases |actions|
  {
    if actions != [] {
      StepTouchesRowOnlyToRevoke(t, actions[0], id);
      RowsAreMonotone(Apply(t, actions[0]), actions[1..], id);
    }
  }

  /**
   An identifier or key pair that was ever inserted is refused in every later state, revoked or not.
   */
  lemma IdsAndKeysInsertedOnce(t: Tables, actions: seq<Action>, id: ConnectionId, c: NewConnection, createdAt: nat, usedSat: nat, now: nat)
    requires Run(t, actions) && id in t.connections
    requires c.id == id || (c.client == t.connections[id].client && c.wallet == t.connections[id].wallet)
    ensures ImportConnection(After(t, actions), c, createdAt, usedSat, now).0 == After(t, actions)
    ensures ImportConnection(After(t, actions), c, createdAt, usedSat, now).1.Err?
    ensures InsertConnection(After(t, actions), c, now).0 == After(t, actions)
    ensures InsertConnection(After(t, actions), c, now).1.Err?
  {
    RowsAreMonotone(t, actions, id);
    assert c.id in After(t, actions).connections || KeysTaken(After(t, actions), c.client, c.wallet);
  }

  // ---- Storing and loading ----

  /**
   What was stored is what is loaded: every authorization field of a new connection reads back unchanged
   in every later state, until its own revision is revoked.
   */
  lemma StoreThenLoad(t: Tables, c: NewConnection, createdAt: nat, usedSat: nat, now: nat, later: seq<Action>)
    requires Inv(t) && IsValid(c) && createdAt <= now
    requires InsertState(t, c, createdAt, usedSat, now).1.Ok?
    requires Run(InsertState(t, c, createdAt, usedSat, now).0, later)
    ensures var end := After(InsertState(t, c, createdAt, usedSat, now).0, later);
            && InsertState(t, c, createdAt, usedSat, now).1.value == ActiveOf(c, createdAt, now)
            && c.id in end.connections
            && (end.connections[c.id].revision == 0 ==> Load(end, c.id) == Ok(Some(Active(ActiveOf(c, createdAt, now)))))
            && (end.connections[c.id].revision != 0 ==> Load(end, c.id).Ok? && Load(end, c.id).value.Some?
                                                        && Load(end, c.id).value.value.Tombstoned?)
  {
    var next := InsertState(t, c, createdAt, usedSat, now).0;
    InsertKeepsInv(t, c, createdAt, usedSat, now);
    NewRowLoadsBack(c, createdAt, now);
    RevisedRowsAreTombstones(next, later, c.id);
    RunKeepsInv(next, later);
    assert RowOk(After(next, later).connections[c.id]);
  }

  lemma NewRowLoadsBack(c: NewConnection, createdAt: nat, now: nat)
    requires IsValid(c) && createdAt <= now && EncodeFeePolicy(c.policy.budget.feePolicy).Ok?
    requires c.expiresAt.Some? ==> c.expiresAt.value > createdAt
    ensures Hydrate(c.id, RowOf(c, createdAt, now, EncodeFeePolicy(c.policy.budget.feePolicy).value))
            == Ok(Active(ActiveOf(c, createdAt, now)))
  {
    ColumnsRoundTrip(c.encryption, c.policy.budget.interval, c.policy.budget.feePolicy, c.policy.methods);
  }

  lemma {:induction false} RevisedRowsAreTombstones(t: Tables, actions: seq<Action>, id: ConnectionId)
    requires Run(t, actions) && id in t.connections
    ensures id in After(t, actions).connections
    ensures After(t, actions).connections[id] == t.connections[id]
            || (After(t, actions).connections[id].status == "tombstoned"
                && After(t, actions).connections[id].revision == t.connections[id].revision + 1)
    decreases |actions|
  {
    if actions != [] {
      StepTouchesRowOnlyToRevoke(t, actions[0], id);
      RowsAreMonotone(Apply(t, actions[0]), actions[1..], id);
      RevisedRowsAreTombstones(Apply(t, actions[0]), actions[1..], id);
    }
  }

  // ---- Revocation ----

  /** A committed revocation leaves a disabled registration change at the new revision with the old relay list. */
  lemma TombstoneLeavesDisabledWake(t: Tables, id: ConnectionId, expected: nat, now: nat)
    requires Inv(t) && Tombstone(t, id, expected, now).1.Ok?
    ensures var next := Tombstone(t, id, expected, now).0;
            && id in next.wakes
            && next.wakes[id] == WakeRow(expected + 1, false, t.connections[id].client, t.connections[id].wallet,
                                         0, now, now, t.connections[id].relays)
            && Load(next, id) == Ok(Some(Tombstoned(id, expected + 1, now)))
            && !IsRevisionActive(next, id, expected)
  {
    TombstoneWrites(t, id, expected, now);
    assert RowOk(t.connections[id]);
  }

  /** A revocation succeeds exactly for the active expected revision at a storable time not before creation. */
  lemma TombstoneSucceedsExactly(t: Tables, id: ConnectionId, expected: nat, now: nat)
    requires Inv(t)
    ensures Tombstone(t, id, expected, now).1.Ok? <==>
              IsRevisionActive(t, id, expected) && Fits(expected + 1) && t.connections[id].createdAt <= now && Fits(now)
    ensures Tombstone(t, id, expected, now).1.Err? ==>
              Tombstone(t, id, expected, now).0 == t && Tombstone(t, id, expected, now).1.error != CorruptData
  {
    assert id in t.connections ==> RowOk(t.connections[id]);
  }

  /** After a revocation no wake-outbox work, requeue or insertion enables the connection again. */
  lemma {:induction false} RevokedStaysDisabled(t: Tables, actions: seq<Action>, id: ConnectionId)
    requires Inv(t) && Run(t, actions) && id in t.connections && t.connections[id].status == "tombstoned"
    ensures var end := After(t, actions);
            && id in end.connections && end.connections[id] == t.connections[id]
            && (id in end.wakes ==> !end.wakes[id].enabled && end.wakes[id].revision == t.connections[id].revision)
            && forall revision :: !IsRevisionActive(end, id, revision)
  {
    RunKeepsInv(t, actions);
    RowsAreMonotone(t, actions, id);
    assert id in After(t, actions).wakes ==> WakeOk(After(t, actions), id);
  }

  // ---- The ledger's view of authority ----

  /** What event completion reads of the connection table. */
  function AuthorityView(t: Tables): map<ConnectionId, L.Authority> {
    map id | id in t.connections && t.connections[id].revision >= 0 ::
      L.Authority(t.connections[id].revision, t.connections[id].status == "active")
  }

  /** Every registry step is at most one registration or revocation of that view. */
  lemma RegistryRefinesAuthority(t: Tables, a: Action, s: L.Store)
    requires Inv(t) && Enabled(t, a) && s.authorities == AuthorityView(t)
    ensures ViewStep(s, AuthorityView(Apply(t, a)))
  {
    var next := Apply(t, a);
    ConnectionsMove(t, a);
    if next.connections == t.connections {
      SameView(t, next);
    } else if a.Revoke? {
      assert RowOk(t.connections[a.id]);
      RevocationIsViewStep(t, next, a.id, a.at, s);
    } else {
      InsertionIsViewStep(t, next, a.c.id, s);
    }
  }

  /** The new view is the old one, or one registration or revocation later. */
  ghost predicate ViewStep(s: L.Store, view: map<ConnectionId, L.Authority>) {
    view == s.authorities
    || (exists step: L.Action :: (step.Register? || step.Revoke?) && L.Enabled(s, step) && view == L.AuthoritiesAfter(s, step))
  }

  ghost predicate Inserts(before: map<ConnectionId, ConnectionRow>, after: map<ConnectionId, ConnectionRow>, id: ConnectionId) {
    id !in before && id in after && after == before[id := after[id]] && after[id].revision == 0 && after[id].status == "active"
  }

  lemma InsertMoves(t: Tables, c: NewConnection, createdAt: nat, usedSat: nat, now: nat)
    ensures var after := InsertState(t, c, createdAt, usedSat, now).0.connections;
            after == t.connections || Inserts(t.connections, after, c.id)
  {
  }

  lemma TombstoneMoves(t: Tables, id: ConnectionId, expected: nat, now: nat)
    ensures var after := Tombstone(t, id, expected, now).0.connections;
            after == t.connections
            || (id in t.connections && t.connections[id].status == "active"
                && after == t.connections[id := Revoked(t.connections[id], now)])
  {
  }

  lemma ConnectionsMove(t: Tables, a: Action)
    ensures var before, after := t.connections, Apply(t, a).connections;
            || after == before
            || (a.Revoke? && a.id in before && before[a.id].status == "active" && after == before[a.id := Revoked(before[a.id], a.at)])
            || ((a.Insert? || a.Import?) && Inserts(before, after, a.c.id))
  {
    match a
    case Insert(c, now) => InsertMoves(t, c, now, 0, now);
    case Import(c, createdAt, used, now) => InsertMoves(t, c, createdAt, used, now);
    case Revoke(id, expected, now) => TombstoneMoves(t, id, expected, now);
    case _ =>
  }

  lemma SameView(t: Tables, next: Tables)
    requires next.connections == t.connections
    ensures AuthorityView(next) == AuthorityView(t)
  {
  }

  lemma RevocationIsViewStep(t: Tables, next: Tables, id: ConnectionId, now: nat, s: L.Store)
    requires id in t.connections && t.connections[id].revision >= 0 && t.connections[id].status == "active"
    requires next.connections == t.connections[id := Revoked(t.connections[id], now)] && s.authorities == AuthorityView(t)
    ensures ViewStep(s, AuthorityView(next))
  {
    RevokedView(t, next, id, now);
    RevokeStep(s, id);
  }

  lemma InsertionIsViewStep(t: Tables, next: Tables, id: ConnectionId, s: L.Store)
    requires Inserts(t.connections, next.connections, id)
    requires s.authorities == AuthorityView(t)
    ensures ViewStep(s, AuthorityView(next))
  {
    InsertedView(t, next, id);
    assert L.Enabled(s, L.Register(id));
    assert AuthorityView(next) == L.AuthoritiesAfter(s, L.Register(id));
  }

  lemma RevokeStep(s: L.Store, id: ConnectionId)
    requires id in s.authorities && s.authorities[id].active
    ensures L.Enabled(s, L.Revoke(id))
    ensures L.AuthoritiesAfter(s, L.Revoke(id)) == s.authorities[id := L.Authority(s.authorities[id].revision + 1, false)]
  {
  }

  lemma RevokedView(t: Tables, next: Tables, id: ConnectionId, now: nat)
    requires id in t.connections && t.connections[id].revision >= 0
    requires next.connections == t.connections[id := Revoked(t.connections[id], now)]
    ensures AuthorityView(next) == AuthorityView(t)[id := L.Authority(t.connections[id].revision + 1, false)]
  {
  }

  lemma InsertedView(t: Tables, next: Tables, id: ConnectionId)
    requires Inserts(t.connections, next.connections, id)
    ensures AuthorityView(next) == AuthorityView(t)[id := L.Authority(0, true)]
  {
  }

  // ---- Imported usage ----

  lemma {:induction false} PeriodsStay(t: Tables, actions: seq<Action>, key: A.PeriodKey)
    requires Run(t, actions) && key.connection in t.connections
    ensures key in After(t, actions).periods <==> key in t.periods
    ensures key in t.periods ==> After(t, actions).periods[key] == t.periods[key]
    decreases |actions|
  {
    if actions != [] {
      StepTouchesRowOnlyToRevoke(t, actions[0], key.connection);
      PeriodsStay(Apply(t, actions[0]), actions[1..], key);
    }
  }

  /**
   With no payments, imported usage is reported unchanged exactly while the reading time lies in the
   import's own budget period, and as zero in every later one.
   */
  lemma ImportedUsageReadsBack(t: Tables, c: NewConnection, createdAt: nat, usedSat: nat, now: nat, later: seq<Action>, reading: nat)
    requires Inv(t) && IsValid(c)
    requires ImportConnection(t, c, createdAt, usedSat, now).1.Ok?
    requires Run(ImportConnection(t, c, createdAt, usedSat, now).0, later)
    requires now <= reading && Fits(reading)
    ensures var end := After(ImportConnection(t, c, createdAt, usedSat, now).0, later);
            var interval := c.policy.budget.interval;
            var start := Budget.CheckedPeriodStart(interval, createdAt, now);
            && start.Ok?
            && UsageAt(end, c.id, interval, createdAt, reading)
               == Ok(if interval == Budget.Never || reading < start.value + Budget.Duration(interval).value then usedSat else 0)
  {
    var interval := c.policy.budget.interval;
    var next := ImportConnection(t, c, createdAt, usedSat, now).0;
    Budget.PeriodBoundary(interval, createdAt, now, reading);
    Budget.PeriodStartsAgree(interval, createdAt, now);
    Budget.PeriodStartsAgree(interval, createdAt, reading);
    var key := A.PeriodKey(c.id, Budget.CheckedPeriodStart(interval, createdAt, reading).value);
    PeriodsStay(next, later, key);
    NewConnectionHasNoPeriods(t, c.id);
  }

  lemma NewConnectionHasNoPeriods(t: Tables, id: ConnectionId)
    requires Inv(t) && id !in t.connections
    ensures forall start: nat :: A.PeriodKey(id, start) !in t.periods
  {
  }
}
