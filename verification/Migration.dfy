/** Legacy migration: importing a trusted snapshot idempotently, whatever was already imported or revoked. */
module Migration {
  import opened Types
  import opened Registry
  import opened RegistrySafety
  import Budget
  import A = Accounting

  /** One trusted application authorization with its original creation time and usage. */
  datatype Legacy = Legacy(c: NewConnection, createdAt: nat, usedSat: nat)

  /** A revoked record the host must remove. */
  datatype Report = Report(id: ConnectionId, client: PublicKey)

  predicate Matches(l: Legacy, active: ActiveConnection) {
    && active.id == l.c.id && active.client == l.c.client && active.wallet == l.c.wallet
    && active.relays == l.c.relays && active.policy == l.c.policy && active.encryption == l.c.encryption
    && active.createdAt == l.createdAt && active.expiresAt == l.c.expiresAt
  }

  function MigrateOne(t: Tables, l: Legacy, now: nat): (Tables, Result<seq<Report>, RegistryError>) {
    match Load(t, l.c.id)
    case Err(error) => (t, Err(error))
    case Ok(None) =>
      var (next, r) := ImportConnection(t, l.c, l.createdAt, l.usedSat, now);
      (next, if r.Ok? then Ok([]) else Err(r.error))
    case Ok(Some(Active(active))) => (t, if Matches(l, active) then Ok([]) else Err(CorruptData))
    case Ok(Some(Tombstoned(_, _, _))) => (t, Ok([Report(l.c.id, l.c.client)]))
  }

  /** The batch loop; the clock is read once per imported record, and what was imported before an error stays. */
  function Migrate(t: Tables, batch: seq<Legacy>, times: seq<nat>): (Tables, Result<seq<Report>, RegistryError>)
    requires |times| == |batch|
    decreases |batch|
  {
    if batch == [] then (t, Ok([]))
    else
      var (next, first) := MigrateOne(t, batch[0], times[0]);
      if first.Err? then (next, Err(first.error)) else Prefixed(first.value, Migrate(next, batch[1..], times[1..]))
  }

  /** An outcome with earlier reports in front of its own. */
  function Prefixed(earlier: seq<Report>, end: (Tables, Result<seq<Report>, RegistryError>)): (Tables, Result<seq<Report>, RegistryError>) {
    (end.0, if end.1.Ok? then Ok(earlier + end.1.value) else Err(end.1.error))
  }

  // ---- What two runs must agree on ----

  /** The authorization columns of a row; `updatedAt` of an active row records when it was imported. */
  function Authority(row: ConnectionRow): ConnectionRow {
    row.(updatedAt := row.createdAt)
  }

  ghost predicate SameAuthorizations(a: Tables, b: Tables) {
    && a.connections.Keys == b.connections.Keys
    && forall id <- a.connections :: Authority(a.connections[id]) == Authority(b.connections[id])
  }

  /** Every clock reading is storable and not before the record's creation. */
  ghost predicate Legal(batch: seq<Legacy>, times: seq<nat>) {
    && |times| == |batch|
    && forall k :: 0 <= k < |batch| ==> IsValid(batch[k].c) && batch[k].createdAt <= times[k] && Fits(times[k])
  }

  lemma KeysTakenRespects(a: Tables, b: Tables, client: PublicKey, wallet: PublicKey)
    requires SameAuthorizations(a, b)
    ensures KeysTaken(a, client, wallet) <==> KeysTaken(b, client, wallet)
  {
    forall id | id in a.connections
      ensures a.connections[id].client == b.connections[id].client && a.connections[id].wallet == b.connections[id].wallet
    {
      assert Authority(a.connections[id]).client == Authority(b.connections[id]).client;
    }
  }

  /** At legal times an import fails or not for reasons that do not depend on the clock. */
  lemma ImportOutcome(a: Tables, b: Tables, l: Legacy, now: nat, other: nat)
    requires a.connections.Keys == b.connections.Keys
    requires KeysTaken(a, l.c.client, l.c.wallet) <==> KeysTaken(b, l.c.client, l.c.wallet)
    requires l.createdAt <= now && l.createdAt <= other && Fits(now) && Fits(other)
    ensures var r, s := ImportConnection(a, l.c, l.createdAt, l.usedSat, now), ImportConnection(b, l.c, l.createdAt, l.usedSat, other);
            && (r.1.Ok? <==> s.1.Ok?) && (r.1.Err? ==> s.1.Err? && r.1.error == s.1.error)
  {
    Budget.PeriodStartsAgree(l.c.policy.budget.interval, l.createdAt, now);
    Budget.PeriodStartsAgree(l.c.policy.budget.interval, l.createdAt, other);
  }

  lemma ImportWrites(t: Tables, l: Legacy, now: nat)
    ensures var (next, r) := ImportConnection(t, l.c, l.createdAt, l.usedSat, now);
            if r.Ok?
            then EncodeFeePolicy(l.c.policy.budget.feePolicy).Ok?
                 && next.connections == t.connections[l.c.id := RowOf(l.c, l.createdAt, now, EncodeFeePolicy(l.c.policy.budget.feePolicy).value)]
            else next == t
  {
  }

  lemma ImportRespects(a: Tables, b: Tables, l: Legacy, now: nat, other: nat)
    requires SameAuthorizations(a, b) && l.createdAt <= now && l.createdAt <= other && Fits(now) && Fits(other)
    ensures var r, s := ImportConnection(a, l.c, l.createdAt, l.usedSat, now), ImportConnection(b, l.c, l.createdAt, l.usedSat, other);
            && (r.1.Ok? <==> s.1.Ok?) && (r.1.Err? ==> s.1.Err? && r.1.error == s.1.error)
            && SameAuthorizations(r.0, s.0)
  {
    KeysTakenRespects(a, b, l.c.client, l.c.wallet);
    ImportOutcome(a, b, l, now, other);
    ImportWrites(a, l, now);
    ImportWrites(b, l, other);
  }

  /** Loading depends on the authorization columns, except for the time an active row was imported. */
  lemma LoadRespects(a: Tables, b: Tables, id: ConnectionId)
    requires SameAuthorizations(a, b) && Inv(a) && Inv(b)
    ensures Load(a, id).Ok? && Load(b, id).Ok?
    ensures Load(a, id).value.None? <==> Load(b, id).value.None?
    ensures var la, lb := Load(a, id).value, Load(b, id).value;
            la.Some? ==> match la.value {
                           case Active(x) => lb.value.Active? && lb.value.connection.(updatedAt := 0) == x.(updatedAt := 0)
                           case _ => lb.value.Tombstoned?
                         }
  {
    if id in a.connections {
      HydrateRespects(id, a.connections[id], b.connections[id]);
    }
  }

  lemma HydrateRespects(id: ConnectionId, row: ConnectionRow, other: ConnectionRow)
    requires RowOk(row) && RowOk(other) && Authority(row) == Authority(other)
    ensures Hydrate(id, row).Ok? && Hydrate(id, other).Ok?
    ensures match Hydrate(id, row).value {
              case Active(x) =>
                && Hydrate(id, other).value.Active?
                && Hydrate(id, other).value.connection.(updatedAt := 0) == x.(updatedAt := 0)
              case _ => Hydrate(id, other).value.Tombstoned?
            }
  {
    var u, v := row.(updatedAt := 0), other.(updatedAt := 0);
    assert u == Authority(row).(updatedAt := 0) == Authority(other).(updatedAt := 0) == v;
  }

  lemma OneRespects(a: Tables, b: Tables, l: Legacy, now: nat, other: nat)
    requires SameAuthorizations(a, b) && Inv(a) && Inv(b)
    requires IsValid(l.c) && l.createdAt <= now && l.createdAt <= other && Fits(now) && Fits(other)
    ensures MigrateOne(a, l, now).1 == MigrateOne(b, l, other).1
    ensures SameAuthorizations(MigrateOne(a, l, now).0, MigrateOne(b, l, other).0)
  {
    LoadRespects(a, b, l.c.id);
    ImportRespects(a, b, l, now, other);
  }

  lemma OneKeepsInv(t: Tables, l: Legacy, now: nat)
    requires Inv(t) && IsValid(l.c)
    ensures Inv(MigrateOne(t, l, now).0)
  {
    if l.createdAt <= now {
      InsertKeepsInv(t, l.c, l.createdAt, l.usedSat, now);
    }
  }

  /** One record migrated in both tables. */
  lemma OneKeepsBoth(a: Tables, b: Tables, l: Legacy, now: nat, other: nat)
    requires SameAuthorizations(a, b) && Inv(a) && Inv(b)
    requires IsValid(l.c) && l.createdAt <= now && l.createdAt <= other && Fits(now) && Fits(other)
    ensures MigrateOne(a, l, now).1 == MigrateOne(b, l, other).1
    ensures SameAuthorizations(MigrateOne(a, l, now).0, MigrateOne(b, l, other).0)
    ensures Inv(MigrateOne(a, l, now).0) && Inv(MigrateOne(b, l, other).0)
  {
    OneRespects(a, b, l, now, other);
    OneKeepsInv(a, l, now);
    OneKeepsInv(b, l, other);
  }

  /** Two runs over the same authorizations, at any legal times, report and authorize the same. */
  lemma {:induction false} MigrateRespects(a: Tables, b: Tables, batch: seq<Legacy>, times: seq<nat>, others: seq<nat>)
    requires SameAuthorizations(a, b) && Inv(a) && Inv(b) && Legal(batch, times) && Legal(batch, others)
    ensures Migrate(a, batch, times).1 == Migrate(b, batch, others).1
    ensures SameAuthorizations(Migrate(a, batch, times).0, Migrate(b, batch, others).0)
    ensures Inv(Migrate(a, batch, times).0) && Inv(Migrate(b, batch, others).0)
    decreases |batch|
  {
    if batch != [] {
      var next, same := MigrateOne(a, batch[0], times[0]).0, MigrateOne(b, batch[0], others[0]).0;
      OneKeepsBoth(a, b, batch[0], times[0], others[0]);
      if MigrateOne(a, batch[0], times[0]).1.Ok? {
        MigrateRespects(next, same, batch[1..], times[1..], others[1..]);
      }
    }
  }

  // ---- Records that are done ----

  /** The record is already imported or revoked, so migrating it changes nothing. */
  ghost predicate Settled(t: Tables, l: Legacy) {
    var loaded := Load(t, l.c.id);
    loaded.Ok? && loaded.value.Some? && (loaded.value.value.Active? ==> Matches(l, loaded.value.value.connection))
  }

  /** What a settled record contributes to the result. */
  function Reported(t: Tables, l: Legacy): seq<Report> {
    var loaded := Load(t, l.c.id);
    if loaded.Ok? && loaded.value.Some? && loaded.value.value.Tombstoned? then [Report(l.c.id, l.c.client)] else []
  }

  /** After its migration a record is settled, and its report is what the table said before. */
  lemma MigratedIsSettled(t: Tables, l: Legacy, now: nat)
    requires Inv(t) && IsValid(l.c) && MigrateOne(t, l, now).1.Ok?
    ensures Settled(MigrateOne(t, l, now).0, l)
    ensures MigrateOne(t, l, now).1.value == Reported(t, l) == Reported(MigrateOne(t, l, now).0, l)
  {
    if Load(t, l.c.id) == Ok(None) {
      NewRowLoadsBack(l.c, l.createdAt, now);
    }
  }

  lemma OneKeepsRows(t: Tables, l: Legacy, now: nat, id: ConnectionId)
    requires id in t.connections
    ensures id in MigrateOne(t, l, now).0.connections && MigrateOne(t, l, now).0.connections[id] == t.connections[id]
    ensures Load(MigrateOne(t, l, now).0, id) == Load(t, id)
  {
  }

  /** Migration never touches a row that was there before: nothing is changed and nothing is resurrected. */
  lemma {:induction false} MigrateKeepsRows(t: Tables, batch: seq<Legacy>, times: seq<nat>, id: ConnectionId)
    requires |times| == |batch| && id in t.connections
    ensures id in Migrate(t, batch, times).0.connections
    ensures Migrate(t, batch, times).0.connections[id] == t.connections[id]
    ensures Load(Migrate(t, batch, times).0, id) == Load(t, id)
    decreases |batch|
  {
    if batch != [] {
      OneKeepsRows(t, batch[0], times[0], id);
      if MigrateOne(t, batch[0], times[0]).1.Ok? {
        MigrateKeepsRows(MigrateOne(t, batch[0], times[0]).0, batch[1..], times[1..], id);
      }
    }
  }

  /** After a successful run every record of the batch is settled. */
  lemma {:induction false} MigrateSettles(t: Tables, batch: seq<Legacy>, times: seq<nat>)
    requires Inv(t) && Legal(batch, times) && Migrate(t, batch, times).1.Ok?
    ensures Inv(Migrate(t, batch, times).0)
    ensures forall l <- batch :: Settled(Migrate(t, batch, times).0, l)
    decreases |batch|
  {
    if batch != [] {
      var l, next := batch[0], MigrateOne(t, batch[0], times[0]).0;
      OneKeepsInv(t, l, times[0]);
      MigratedIsSettled(t, l, times[0]);
      MigrateSettles(next, batch[1..], times[1..]);
      MigrateKeepsRows(next, batch[1..], times[1..], l.c.id);
      assert forall m <- batch :: m == l || m in batch[1..];
    }
  }

  /** A run over settled records changes nothing and reports exactly the tombstoned ones, in order. */
  lemma {:induction false} SettledRunChangesNothing(t: Tables, batch: seq<Legacy>, times: seq<nat>)
    requires |times| == |batch| && forall l <- batch :: Settled(t, l)
    ensures Migrate(t, batch, times) == (t, Ok(AllReported(t, batch)))
    decreases |batch|
  {
    if batch != [] {
      assert batch[0] in batch;
      assert forall m <- batch[1..] :: m in batch;
      SettledRunChangesNothing(t, batch[1..], times[1..]);
    }
  }

  function AllReported(t: Tables, batch: seq<Legacy>): seq<Report>
    decreases |batch|
  {
    if batch == [] then [] else Reported(t, batch[0]) + AllReported(t, batch[1..])
  }

  lemma PrefixedTwice(a: seq<Report>, b: seq<Report>, end: (Tables, Result<seq<Report>, RegistryError>))
    ensures Prefixed(a, Prefixed(b, end)) == Prefixed(a + b, end)
    ensures Prefixed([], end) == end
  {
    if end.1.Ok? {
      assert a + (b + end.1.value) == (a + b) + end.1.value;
      assert [] + end.1.value == end.1.value;
    }
  }

  lemma MigrateStep(t: Tables, l: Legacy, rest: seq<Legacy>, time: nat, times: seq<nat>)
    requires |times| == |rest|
    ensures var (next, one) := MigrateOne(t, l, time);
            Migrate(t, [l] + rest, [time] + times)
            == if one.Err? then (next, Err(one.error)) else Prefixed(one.value, Migrate(next, rest, times))
  {
    assert ([l] + rest)[1..] == rest && ([time] + times)[1..] == times;
  }

  lemma {:induction false} MigrateAppends(t: Tables, p: seq<Legacy>, q: seq<Legacy>, times: seq<nat>, later: seq<nat>)
    requires |times| == |p| && |later| == |q|
    ensures var first, whole := Migrate(t, p, times), Migrate(t, p + q, times + later);
            whole == if first.1.Err? then first else Prefixed(first.1.value, Migrate(first.0, q, later))
    decreases |p|
  {
    if p == [] {
      assert p + q == q && times + later == later;
      PrefixedTwice([], [], Migrate(t, q, later));
    } else {
      var next, one := MigrateOne(t, p[0], times[0]).0, MigrateOne(t, p[0], times[0]).1;
      assert p == [p[0]] + p[1..] && times == [times[0]] + times[1..];
      assert p + q == [p[0]] + (p[1..] + q) && times + later == [times[0]] + (times[1..] + later);
      MigrateStep(t, p[0], p[1..], times[0], times[1..]);
      MigrateStep(t, p[0], p[1..] + q, times[0], times[1..] + later);
      MigrateAppends(next, p[1..], q, times[1..], later);
      var rest := Migrate(next, p[1..], times[1..]);
      if one.Ok? && rest.1.Ok? {
        PrefixedTwice(one.value, rest.1.value, Migrate(rest.0, q, later));
      }
    }
  }

  /**
   What migrating one record does: a new one is imported, an active one must agree in every authorization
   column, a revoked one is reported and stays revoked.
   */
  lemma MigratedRecord(t: Tables, l: Legacy, now: nat)
    ensures var (next, r) := MigrateOne(t, l, now);
            var loaded := Load(t, l.c.id);
            && (loaded.Err? ==> next == t && r == Err(loaded.error))
            && (loaded == Ok(None) ==>
                  var (imported, active) := ImportConnection(t, l.c, l.createdAt, l.usedSat, now);
                  next == imported && r == if active.Ok? then Ok([]) else Err(active.error))
            && (loaded.Ok? && loaded.value.Some? && loaded.value.value.Tombstoned? ==>
                  next == t && r == Ok([Report(l.c.id, l.c.client)]))
            && (loaded.Ok? && loaded.value.Some? && loaded.value.value.Active? ==>
                  var a := loaded.value.value.connection;
                  next == t
                  && r == if a.client == l.c.client && a.wallet == l.c.wallet && a.relays == l.c.relays
                             && a.policy.methods == l.c.policy.methods && a.policy.budget == l.c.policy.budget
                             && a.encryption == l.c.encryption && a.createdAt == l.createdAt && a.expiresAt == l.c.expiresAt
                          then Ok([]) else Err(CorruptData))
  {
    LoadedUnderItsId(t, l.c.id);
  }

  lemma LoadedUnderItsId(t: Tables, id: ConnectionId)
    ensures Load(t, id).Ok? && Load(t, id).value.Some? && Load(t, id).value.value.Active? ==>
              Load(t, id).value.value.connection.id == id
  {
  }

  // ---- The results ----

  /**
   If a batch would succeed, stopping after any prefix and running the whole batch again, at any later
   legal times, reports the same tombstones and leaves the same authorizations as one uninterrupted run.
   */
  lemma MigrationResumes(t: Tables, batch: seq<Legacy>, times: seq<nat>, k: nat, interrupted: seq<nat>, again: seq<nat>)
    requires Inv(t) && k <= |batch|
    requires Legal(batch, times) && Legal(batch[..k], interrupted) && Legal(batch, again)
    requires Migrate(t, batch, times).1.Ok?
    ensures var part := Migrate(t, batch[..k], interrupted);
            && part.1.Ok?
            && Migrate(part.0, batch, again).1 == Migrate(t, batch, times).1
            && SameAuthorizations(Migrate(part.0, batch, again).0, Migrate(t, batch, times).0)
  {
    var p, q := batch[..k], batch[k..];
    var part := Migrate(t, p, interrupted);
    MigrateRespects(t, t, p, interrupted, times[..k]);
    UninterruptedSplits(t, batch, times, k);
    RerunSplits(t, batch, k, interrupted, again);
    assert Legal(q, times[k..]) && Legal(q, again[k..]);
    MigrateRespects(part.0, Migrate(t, p, times[..k]).0, q, again[k..], times[k..]);
  }

  /** A run is its first records, then the others. */
  lemma UninterruptedSplits(t: Tables, batch: seq<Legacy>, times: seq<nat>, k: nat)
    requires k <= |batch| == |times| && Migrate(t, batch, times).1.Ok?
    ensures var first := Migrate(t, batch[..k], times[..k]);
            first.1.Ok? && Migrate(t, batch, times) == Prefixed(first.1.value, Migrate(first.0, batch[k..], times[k..]))
  {
    assert batch == batch[..k] + batch[k..] && times == times[..k] + times[k..];
    MigrateAppends(t, batch[..k], batch[k..], times[..k], times[k..]);
  }

  /** The records an interrupted run completed change nothing when they are run again. */
  lemma CompletedPartRepeats(t: Tables, p: seq<Legacy>, interrupted: seq<nat>, again: seq<nat>)
    requires Inv(t) && |again| == |p| && Legal(p, interrupted) && Migrate(t, p, interrupted).1.Ok?
    ensures var part := Migrate(t, p, interrupted); Migrate(part.0, p, again) == part
  {
    MigrateSettles(t, p, interrupted);
    SettledRunChangesNothing(Migrate(t, p, interrupted).0, p, again);
    ReportsAreTombstones(t, p, interrupted);
  }

  /** Running the whole batch again only continues where the interrupted run stopped. */
  lemma RerunSplits(t: Tables, batch: seq<Legacy>, k: nat, interrupted: seq<nat>, again: seq<nat>)
    requires Inv(t) && k <= |batch| == |again| && Legal(batch[..k], interrupted)
    requires Migrate(t, batch[..k], interrupted).1.Ok?
    ensures var part := Migrate(t, batch[..k], interrupted);
            Migrate(part.0, batch, again) == Prefixed(part.1.value, Migrate(part.0, batch[k..], again[k..]))
  {
    CompletedPartRepeats(t, batch[..k], interrupted, again[..k]);
    assert batch == batch[..k] + batch[k..] && again == again[..k] + again[k..];
    MigrateAppends(Migrate(t, batch[..k], interrupted).0, batch[..k], batch[k..], again[..k], again[k..]);
  }

  /** The result names exactly the records that were tombstoned before the run, in batch order. */
  lemma {:induction false} ReportsAreTombstones(t: Tables, batch: seq<Legacy>, times: seq<nat>)
    requires Inv(t) && Legal(batch, times) && Migrate(t, batch, times).1.Ok?
    ensures Migrate(t, batch, times).1.value == AllReported(t, batch) == AllReported(Migrate(t, batch, times).0, batch)
    decreases |batch|
  {
    if batch != [] {
      var l, next, end := batch[0], MigrateOne(t, batch[0], times[0]).0, Migrate(t, batch, times).0;
      OneKeepsInv(t, l, times[0]);
      MigratedIsSettled(t, l, times[0]);
      ReportsAreTombstones(next, batch[1..], times[1..]);
      MigrateKeepsRows(next, batch[1..], times[1..], l.c.id);
      OneKeepsReports(t, l, times[0], batch[1..]);
    }
  }

  /** Importing one record tombstones none. */
  lemma {:induction false} OneKeepsReports(t: Tables, l: Legacy, now: nat, batch: seq<Legacy>)
    requires Inv(t) && IsValid(l.c) && l.createdAt <= now && MigrateOne(t, l, now).1.Ok?
    ensures AllReported(MigrateOne(t, l, now).0, batch) == AllReported(t, batch)
    decreases |batch|
  {
    if batch != [] {
      OneKeepsReports(t, l, now, batch[1..]);
      if batch[0].c.id in t.connections {
        OneKeepsRows(t, l, now, batch[0].c.id);
      } else if batch[0].c.id == l.c.id {
        NewRowLoadsBack(l.c, l.createdAt, now);
      }
    }
  }

  /** A second successful run changes nothing at all and reports the same. */
  lemma SecondRunChangesNothing(t: Tables, batch: seq<Legacy>, times: seq<nat>, again: seq<nat>)
    requires Inv(t) && Legal(batch, times) && |again| == |batch| && Migrate(t, batch, times).1.Ok?
    ensures Migrate(Migrate(t, batch, times).0, batch, again) == Migrate(t, batch, times)
  {
    MigrateSettles(t, batch, times);
    SettledRunChangesNothing(Migrate(t, batch, times).0, batch, again);
    ReportsAreTombstones(t, batch, times);
  }
}
