/** The registry object and the connection manager in the program's own control flow. */
module ConnectionService {
  import opened Types
  import opened Registry
  import opened RegistrySafety
  import opened Migration
  import Budget
  import A = Accounting

  class ConnectionManager {
    var connections: map<ConnectionId, ConnectionRow>
    var wakes: map<ConnectionId, WakeRow>
    var periods: map<A.PeriodKey, A.Period>

    function Contents(): Tables
      reads this
    {
      Tables(connections, wakes, periods)
    }

    constructor ()
      ensures Contents() == Tables(map[], map[], map[])
    {
      connections, wakes, periods := map[], map[], map[];
    }

    /** Inserts the authorization, its imported usage and its wake registration in one transaction. */
    method InsertConnectionState(c: NewConnection, createdAt: nat, usedSat: nat, now: nat)
      returns (r: Result<ActiveConnection, RegistryError>)
      modifies this
      ensures (Contents(), r) == InsertState(old(Contents()), c, createdAt, usedSat, now)
    {
      if !Fits(now) || !Fits(createdAt) {
        return Err(ValueOutOfRange);
      }
      if c.expiresAt.Some? && c.expiresAt.value <= createdAt {
        return Err(InvalidConnection);
      }
      if c.expiresAt.Some? && !Fits(c.expiresAt.value) {
        return Err(ValueOutOfRange);
      }
      var budget := c.policy.budget;
      var fee := EncodeFeePolicy(budget.feePolicy);
      if !Fits(budget.limitSat) || fee.Err? {
        return Err(ValueOutOfRange);
      }
      if c.id in connections || KeysTaken(Contents(), c.client, c.wallet) {
        return Err(AlreadyExists);
      }
      var newPeriods := periods;
      if usedSat > 0 {
        var start := Budget.CheckedPeriodStart(budget.interval, createdAt, now);
        if start.Err? {
          return Err(if start.error.BeforeCreation? then InvalidConnection else ValueOutOfRange);
        }
        if !Fits(start.value) || !Fits(usedSat) {
          return Err(ValueOutOfRange);
        }
        newPeriods := newPeriods[A.PeriodKey(c.id, start.value) := A.Period(budget.limitSat, usedSat, now)];
      }
      connections := connections[c.id := RowOf(c, createdAt, now, fee.value)];
      periods := newPeriods;
      wakes := wakes[c.id := WakeRowOf(c, now)];
      return Ok(ActiveOf(c, createdAt, now));
    }

    method Import(l: Legacy, now: nat) returns (r: Result<ActiveConnection, RegistryError>)
      modifies this
      ensures (Contents(), r) == ImportConnection(old(Contents()), l.c, l.createdAt, l.usedSat, now)
    {
      if l.createdAt > now || l.usedSat > l.c.policy.budget.limitSat
         || (l.usedSat > 0 && PayInvoice !in l.c.policy.methods) {
        return Err(InvalidConnection);
      }
      r := InsertConnectionState(l.c, l.createdAt, l.usedSat, now);
    }

    /** Revokes the expected revision: row, disabled registration and emptied authority commit together. */
    method TombstoneConnection(id: ConnectionId, expected: nat, now: nat) returns (r: Result<StoredConnection, RegistryError>)
      modifies this
      ensures (Contents(), r) == Tombstone(old(Contents()), id, expected, now)
    {
      if !Fits(expected) || !Fits(expected + 1) || !Fits(now) {
        return Err(ValueOutOfRange);
      }
      if id !in connections {
        return Err(NotFound);
      }
      var row := connections[id];
      if row.status == "tombstoned" {
        return Err(AlreadyTombstoned);
      }
      if row.status != "active" {
        return Err(CorruptData);
      }
      if row.revision != expected {
        return Err(StaleRevision);
      }
      if now < row.createdAt {
        return Err(ValueOutOfRange);
      }
      var relays := if id in wakes then MergeIgnoring(wakes[id].relays, row.relays) else row.relays;
      wakes := wakes[id := WakeRow(expected + 1, false, row.client, row.wallet, 0, now, now, relays)];
      connections := connections[id := row.(status := "tombstoned", revision := row.revision + 1, updatedAt := now,
                                            tombstonedAt := Some(now), methods := {}, relays := [])];
      return Ok(Tombstoned(id, expected + 1, now));
    }

    /** Imports a trusted snapshot record by record, collecting the tombstones it meets. */
    method MigrateLegacyBatch(batch: seq<Legacy>, times: seq<nat>) returns (r: Result<seq<Report>, RegistryError>)
      requires |times| == |batch|
      modifies this
      ensures (Contents(), r) == Migrate(old(Contents()), batch, times)
    {
      var result: seq<Report> := [];
      var n := 0;
      assert batch[..0] == [] && times[..0] == [];
      while n < |batch|
        invariant n <= |batch|
        invariant Migrate(old(Contents()), batch[..n], times[..n]) == (Contents(), Ok(result))
        decreases |batch| - n
      {
        var legacy := batch[n];
        assert result + [] == result;
        OneMore(old(Contents()), batch, times, n);
        var loaded := Load(Contents(), legacy.c.id);
        match loaded {
          case Err(error) =>
            return Err(error);
          case Ok(None) =>
            var imported := Import(legacy, times[n]);
            if imported.Err? {
              return Err(imported.error);
            }
          case Ok(Some(Active(active))) =>
            if !Matches(legacy, active) {
              return Err(CorruptData);
            }
          case Ok(Some(Tombstoned(_, _, _))) =>
            result := result + [Report(legacy.c.id, legacy.c.client)];
        }
        n := n + 1;
      }
      assert batch[..n] == batch && times[..n] == times;
      return Ok(result);
    }

    /** Revokes whatever revision is active; repeating it after a revocation changes nothing. */
    method RevokeHostConnection(id: ConnectionId, now: nat)
      returns (r: Result<Option<StoredConnection>, RegistryError>, ghost revision: nat)
      requires Inv(Contents())
      modifies this
      ensures Inv(Contents())
      ensures id !in old(connections) ==> r == Err(NotFound)
      ensures id in old(connections) && old(connections)[id].status == "tombstoned" ==> r == Ok(None) && Contents() == old(Contents())
      ensures r.Ok? ==> id in connections && connections[id].status == "tombstoned"
      ensures r.Ok? && r.value.Some? ==>
                (Contents(), Ok(r.value.value)) == Tombstone(old(Contents()), id, revision, now)
      ensures r.Err? ==> Contents() == old(Contents())
    {
      assert id in connections ==> RowOk(connections[id]);
      revision := 0;
      var loaded := Load(Contents(), id);
      match loaded {
        case Err(error) => return Err(error), 0;
        case Ok(None) => return Err(NotFound), 0;
        case Ok(Some(Tombstoned(_, _, _))) => return Ok(None), 0;
        case Ok(Some(Active(active))) =>
          TombstoneKeepsInv(Contents(), id, active.revision, now);
          var revoked := TombstoneConnection(id, active.revision, now);
          return if revoked.Ok? then Ok(Some(revoked.value)) else Err(revoked.error), active.revision;
      }
    }
  }

  /** The batch result after one more record, and what an error at that record makes of the whole batch. */
  lemma OneMore(t: Tables, batch: seq<Legacy>, times: seq<nat>, n: nat)
    requires n < |batch| == |times| && Migrate(t, batch[..n], times[..n]).1.Ok?
    ensures var (before, reports) := Migrate(t, batch[..n], times[..n]);
            var (next, one) := MigrateOne(before, batch[n], times[n]);
            && (one.Ok? ==> Migrate(t, batch[..n + 1], times[..n + 1]) == (next, Ok(reports.value + one.value)))
            && (one.Err? ==> Migrate(t, batch, times) == (next, Err(one.error)))
  {
    var p, q := batch[..n], batch[n..];
    assert batch[..n + 1] == p + [batch[n]] && times[..n + 1] == times[..n] + [times[n]];
    assert batch == p + q && times == times[..n] + times[n..];
    MigrateAppends(t, p, [batch[n]], times[..n], [times[n]]);
    MigrateAppends(t, p, q, times[..n], times[n..]);
    var (next, one) := MigrateOne(Migrate(t, p, times[..n]).0, batch[n], times[n]);
    assert [batch[n]][1..] == [] && [times[n]][1..] == [];
    assert one.Ok? ==> one.value + [] == one.value;
  }
}
