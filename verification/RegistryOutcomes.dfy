/**
 What each registry transaction does, in the columns of its rows: when it succeeds, the whole new state, and
 which rows can be loaded at all.
 */
module RegistryOutcomes {
  import opened Types
  import opened Registry
  import opened RegistrySafety
  import A = Accounting
  import AO = AccountingOutcomes
  import Budget

  // ---- Stored texts ----

  function MethodText(m: NwcMethod): string {
    match m
    case GetInfo => "get_info"
    case GetBalance => "get_balance"
    case MakeInvoice => "make_invoice"
    case PayInvoice => "pay_invoice"
    case LookupInvoice => "lookup_invoice"
    case ListTransactions => "list_transactions"
  }

  function IntervalText(interval: Budget.Interval): string {
    match interval
    case Never => "never"
    case Hourly => "hourly"
    case Daily => "daily"
    case Weekly => "weekly"
    case Monthly => "monthly"
    case Yearly => "yearly"
  }

  // ---- Validation and insertion ----

  /** A connection is valid with two different curve keys, one to eight different relays and some method. */
  lemma ValidExactly(c: NewConnection)
    ensures IsValid(c) <==>
              && c.client.onCurve && c.wallet.onCurve && c.client != c.wallet
              && 1 <= |c.relays| <= 8 && (forall i, j :: 0 <= i < j < |c.relays| ==> c.relays[i] != c.relays[j])
              && c.policy.methods != {}
  {
  }

  ghost predicate FeeStorable(policy: Budget.FeePolicy) {
    policy.CountTowardBudget? ==> policy.maximumFeeSat <= I64_MAX
  }

  /** The identifier or the pair of keys is in use, by an active or a revoked connection. */
  ghost predicate Taken(t: Tables, c: NewConnection) {
    c.id in t.connections || exists id <- t.connections :: t.connections[id].client == c.client && t.connections[id].wallet == c.wallet
  }

  /** Every number can be stored, and the connection does not expire before it exists. */
  ghost predicate Storable(c: NewConnection, createdAt: nat, usedSat: nat, now: nat) {
    && now <= I64_MAX && createdAt <= I64_MAX && usedSat <= I64_MAX && c.policy.budget.limitSat <= I64_MAX
    && FeeStorable(c.policy.budget.feePolicy)
    && (c.expiresAt.Some? ==> createdAt < c.expiresAt.value <= I64_MAX)
  }

  /** An insertion succeeds exactly with storable values and a free identifier and key pair. */
  lemma InsertionSucceedsExactly(t: Tables, c: NewConnection, createdAt: nat, usedSat: nat, now: nat)
    requires createdAt <= now
    ensures var (next, r) := InsertState(t, c, createdAt, usedSat, now);
            && (r.Ok? <==> Storable(c, createdAt, usedSat, now) && !Taken(t, c))
            && (Storable(c, createdAt, usedSat, now) && Taken(t, c) ==> r == Err(AlreadyExists))
            && (r.Err? ==> next == t)
  {
    if now <= U64_MAX {
      Budget.PeriodStartsAgree(c.policy.budget.interval, createdAt, now);
    }
  }

  /** An import also needs a creation time that is not in the future, and use within the limit and the methods. */
  lemma ImportSucceedsExactly(t: Tables, c: NewConnection, createdAt: nat, usedSat: nat, now: nat)
    ensures var (next, r) := ImportConnection(t, c, createdAt, usedSat, now);
            && (r.Ok? <==> && createdAt <= now && usedSat <= c.policy.budget.limitSat
                           && (usedSat > 0 ==> PayInvoice in c.policy.methods)
                           && Storable(c, createdAt, usedSat, now) && !Taken(t, c))
            && (r.Err? ==> next == t)
  {
    if createdAt <= now {
      InsertionSucceedsExactly(t, c, createdAt, usedSat, now);
    }
  }

  /** The connection row, the enabled wake registration and the imported period a new connection gets. */
  lemma InsertedColumns(t: Tables, c: NewConnection, createdAt: nat, usedSat: nat, now: nat)
    requires createdAt <= now && InsertState(t, c, createdAt, usedSat, now).1.Ok?
    ensures var (next, r) := InsertState(t, c, createdAt, usedSat, now);
            var budget := c.policy.budget;
            && next.connections == t.connections[c.id := ConnectionRow(
                 0, "active", c.client, c.wallet, if c.encryption == Nip44V2 then "nip44_v2" else "nip04",
                 budget.limitSat, IntervalText(budget.interval),
                 if budget.feePolicy.CountTowardBudget? then "count" else "exclude",
                 if budget.feePolicy.CountTowardBudget? then budget.feePolicy.maximumFeeSat else 0,
                 createdAt, c.expiresAt, now, None, set m <- c.policy.methods :: MethodText(m), c.relays)]
            && next.wakes == t.wakes[c.id := WakeRow(0, true, c.client, c.wallet, 0, now, now, c.relays)]
            && r.value == ActiveConnection(c.id, 0, c.client, c.wallet, c.relays, c.policy, c.encryption, createdAt, c.expiresAt, now)
  {
    var rows := set m <- c.policy.methods :: MethodText(m);
    assert rows == EncodeMethods(c.policy.methods);
  }

  /** Imported use opens exactly the period of the connection that covers the import. */
  lemma InsertedPeriod(t: Tables, c: NewConnection, createdAt: nat, usedSat: nat, now: nat)
    requires createdAt <= now && InsertState(t, c, createdAt, usedSat, now).1.Ok?
    ensures var next := InsertState(t, c, createdAt, usedSat, now).0;
            if usedSat == 0 then next.periods == t.periods
            else exists start: nat ::
              && next.periods == t.periods[A.PeriodKey(c.id, start) := A.Period(c.policy.budget.limitSat, usedSat, now)]
              && var seconds := AO.IntervalSeconds(c.policy.budget.interval);
              if seconds == 0 then start == createdAt
              else createdAt <= start <= now < start + seconds && (start - createdAt) % seconds == 0
  {
    InsertionSucceedsExactly(t, c, createdAt, usedSat, now);
    Budget.PeriodStartsAgree(c.policy.budget.interval, createdAt, now);
    var start := Budget.CheckedPeriodStart(c.policy.budget.interval, createdAt, now).value;
    assert usedSat > 0 ==>
        InsertState(t, c, createdAt, usedSat, now).0.periods
        == t.periods[A.PeriodKey(c.id, start) := A.Period(c.policy.budget.limitSat, usedSat, now)];
  }

  // ---- Revocation ----

  /** Each failure of a revocation has its own error. */
  lemma RevocationErrors(t: Tables, id: ConnectionId, expected: nat, now: nat)
    requires Inv(t) && expected < I64_MAX && now <= I64_MAX
    ensures var r := Tombstone(t, id, expected, now).1;
            && (r == Err(NotFound) <==> id !in t.connections)
            && (r == Err(AlreadyTombstoned) <==> id in t.connections && t.connections[id].status == "tombstoned")
            && (r == Err(StaleRevision) <==> id in t.connections && t.connections[id].status == "active"
                                             && t.connections[id].revision != expected)
  {
    assert id in t.connections ==> RowOk(t.connections[id]);
  }

  /** A revocation succeeds exactly on the active row of the expected revision, and what it then writes. */
  lemma RevocationExactly(t: Tables, id: ConnectionId, expected: nat, now: nat)
    requires Inv(t) && expected < I64_MAX && now <= I64_MAX
    ensures var (next, r) := Tombstone(t, id, expected, now);
            && (r.Ok? <==> && id in t.connections && t.connections[id].status == "active"
                           && t.connections[id].revision == expected && t.connections[id].createdAt <= now)
            && (r.Err? ==> next == t)
            && (r.Ok? ==>
                  && r.value == Tombstoned(id, expected + 1, now) && next.periods == t.periods
                  && next.connections == t.connections[id := t.connections[id].(status := "tombstoned", revision := expected + 1,
                                                                                updatedAt := now, tombstonedAt := Some(now),
                                                                                methods := {}, relays := [])])
  {
    assert id in t.connections ==> RowOk(t.connections[id]);
  }

  /** The disabled registration keeps its relays and gets every later relay of the row, once, and no other. */
  lemma {:induction false} MergedRelaysExactly(existing: seq<Relay>, relays: seq<Relay>)
    ensures existing <= MergeIgnoring(existing, relays)
    ensures forall k :: |existing| <= k < |relays| ==> relays[k] in MergeIgnoring(existing, relays)
    ensures forall r <- MergeIgnoring(existing, relays) :: r in existing || r in relays
    ensures Distinct(existing) ==> Distinct(MergeIgnoring(existing, relays))
    decreases |relays|
  {
    if |relays| > |existing| {
      MergedRelaysExactly(existing, relays[..|relays| - 1]);
    }
  }

  // ---- The wake-registration outbox ----

  function ActiveIds(t: Tables): set<ConnectionId> {
    set id | id in t.connections && t.connections[id].status == "active"
  }

  lemma RequeuedIds(t: Tables)
    requires Inv(t)
    ensures ActiveIds(t) == ActiveConnections(t)
  {
    assert forall id <- t.connections :: RowOk(t.connections[id]);
  }

  /** A requeue of the wanted kind at a storable time that no active row is ahead of. */
  lemma RequeueSucceedsExactly(t: Tables, enabled: bool, now: nat)
    requires Inv(t)
    ensures var (next, r) := Requeue(t, enabled, now);
            && (r.Ok? <==> now <= I64_MAX && forall id <- ActiveIds(t) :: t.connections[id].updatedAt <= now)
            && (r.Ok? ==> r.value == |ActiveIds(t)| && next.connections == t.connections && next.periods == t.periods)
            && (r.Err? ==> next == t)
  {
    NoneAhead(t, now);
    RequeueCounts(t, enabled, now);
  }

  lemma RequeueCounts(t: Tables, enabled: bool, now: nat)
    requires Inv(t)
    ensures Requeue(t, enabled, now).1.Ok? ==> Requeue(t, enabled, now).1.value == |ActiveIds(t)|
  {
    RequeuedIds(t);
  }

  lemma NoneAhead(t: Tables, now: nat)
    ensures (forall id <- ActiveIds(t) :: t.connections[id].updatedAt <= now)
       <==> !exists id <- t.connections :: t.connections[id].status == "active" && t.connections[id].updatedAt > now
  {
    if exists id <- t.connections :: t.connections[id].status == "active" && t.connections[id].updatedAt > now {
      var id :| id in t.connections && t.connections[id].status == "active" && t.connections[id].updatedAt > now;
      assert id in ActiveIds(t);
    }
  }

  /** Every active connection gets a fresh registration; the other rows stay. */
  lemma RequeuedRow(t: Tables, enabled: bool, now: nat, id: ConnectionId)
    requires Inv(t) && Requeue(t, enabled, now).1.Ok?
    ensures var wakes := Requeue(t, enabled, now).0.wakes;
            if id in ActiveIds(t)
            then id in wakes && wakes[id] == WakeRow(t.connections[id].revision, enabled, t.connections[id].client,
                                                     t.connections[id].wallet, 0, now, now, t.connections[id].relays)
            else (id in wakes <==> id in t.wakes) && (id in t.wakes ==> wakes[id] == t.wakes[id])
  {
    RequeuedIds(t);
  }

  /** The stored change is still the one that was delivered. */
  ghost predicate Unchanged(t: Tables, id: ConnectionId, change: WakeRow) {
    && id in t.wakes && t.wakes[id].revision == change.revision && t.wakes[id].enabled == change.enabled
    && t.wakes[id].attempts == change.attempts && t.wakes[id].updatedAt == change.updatedAt
  }

  lemma AcknowledgementExactly(t: Tables, id: ConnectionId, change: WakeRow)
    ensures AcknowledgeWake(t, id, change) == if Unchanged(t, id, change) then t.(wakes := t.wakes - {id}) else t
  {
  }

  /** A retry counts one more attempt and waits, while the change is still the same and attempts can be counted. */
  lemma RetryExactly(t: Tables, id: ConnectionId, change: WakeRow, now: nat, delaySeconds: nat)
    ensures RetryWake(t, id, change, now, delaySeconds) ==
              if Unchanged(t, id, change) && delaySeconds > 0 && change.updatedAt <= now && now + delaySeconds <= I64_MAX
                 && t.wakes[id].attempts < 2_147_483_647
              then t.(wakes := t.wakes[id := t.wakes[id].(attempts := t.wakes[id].attempts + 1,
                                                          availableAt := now + delaySeconds, updatedAt := now)])
              else t
  {
  }

  // ---- Loading ----

  /** The columns of a row that can be loaded. */
  ghost predicate Readable(row: ConnectionRow) {
    && row.revision >= 0 && 0 <= row.createdAt <= row.updatedAt
    && (row.expiresAt.Some? ==> row.createdAt < row.expiresAt.value)
    && ((row.status == "tombstoned" && row.tombstonedAt == Some(row.updatedAt))
        || (row.status == "active" && row.tombstonedAt.None? && ReadableAuthority(row)))
  }

  ghost predicate ReadableAuthority(row: ConnectionRow) {
    && row.client.onCurve && row.wallet.onCurve && row.client != row.wallet
    && (row.encryption == "nip44_v2" || row.encryption == "nip04")
    && row.methods != {} && (forall s <- row.methods :: exists m: NwcMethod :: s == MethodText(m))
    && 1 <= |row.relays| <= 8 && row.limitSat >= 0 && row.maximumFeeSat >= 0
    && (exists interval: Budget.Interval :: row.interval == IntervalText(interval))
    && (row.feePolicy == "count" || (row.feePolicy == "exclude" && row.maximumFeeSat == 0))
  }

  lemma MethodReads(s: string)
    ensures StrToMethod(s).Ok? <==> exists m: NwcMethod :: s == MethodText(m)
    ensures StrToMethod(s).Ok? ==> s == MethodText(StrToMethod(s).value)
  {
    if StrToMethod(s).Ok? {
      assert s == MethodText(StrToMethod(s).value);
    } else {
      forall m: NwcMethod
        ensures s != MethodText(m)
      {
        MethodRoundTrip(m);
        assert MethodText(m) == MethodToStr(m);
      }
    }
  }

  lemma IntervalReads(s: string)
    ensures StrToInterval(s).Ok? <==> exists interval: Budget.Interval :: s == IntervalText(interval)
  {
    if StrToInterval(s).Ok? {
      assert s == IntervalText(StrToInterval(s).value);
    } else {
      forall interval: Budget.Interval
        ensures s != IntervalText(interval)
      {
        IntervalTextReads(interval);
      }
    }
  }

  lemma IntervalTextReads(interval: Budget.Interval)
    ensures StrToInterval(IntervalText(interval)) == Ok(interval)
  {
    assert |"never"| == 5 && |"hourly"| == 6 && |"daily"| == 5 && |"weekly"| == 6 && |"monthly"| == 7 && |"yearly"| == 6;
    assert "never"[0] != "daily"[0] && "hourly"[0] != "weekly"[0] && "weekly"[0] != "yearly"[0] && "hourly"[0] != "yearly"[0];
  }

  lemma MethodsRead(rows: set<string>)
    ensures DecodeMethods(rows).Ok? <==> forall s <- rows :: exists m: NwcMethod :: s == MethodText(m)
    ensures DecodeMethods(rows).Ok? ==> (DecodeMethods(rows).value == {} <==> rows == {})
  {
    forall s | s in rows
      ensures StrToMethod(s).Ok? <==> exists m: NwcMethod :: s == MethodText(m)
    {
      MethodReads(s);
    }
    if DecodeMethods(rows).Ok? && rows != {} {
      var s :| s in rows;
      assert StrToMethod(s).value in DecodeMethods(rows).value;
    }
  }

  /** A row loads exactly if its columns are readable; any other row is reported as corrupt, never guessed. */
  lemma LoadsExactly(id: ConnectionId, row: ConnectionRow)
    ensures Hydrate(id, row).Ok? <==> Readable(row)
    ensures Hydrate(id, row).Err? ==> Hydrate(id, row).error == CorruptData
    ensures Hydrate(id, row).Ok? ==> (Hydrate(id, row).value.Active? <==> row.status == "active")
  {
    MethodsRead(row.methods);
    IntervalReads(row.interval);
  }
}
