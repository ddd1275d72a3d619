/**
 The connection registry: authorizations, their permanent tombstones, the wake-registration outbox
 and the imported budget period. Rows hold what the columns hold (text, integers); loading decodes
 them again. Each function is one committed transaction; an error leaves the tables as they were.
 */
module Registry {
  import opened Types
  import Budget
  import A = Accounting

  const MAX_CONNECTION_RELAYS: nat := 8
  const MAX_ATTEMPTS: nat := 2_147_483_647

  /** Thirty-two bytes; not every value is the x coordinate of a curve point. */
  datatype PublicKey = PublicKey(bytes: nat, onCurve: bool)

  datatype Encryption = Nip44V2 | LegacyNip04

  datatype ConnectionPolicy = ConnectionPolicy(methods: set<NwcMethod>, budget: Budget.Policy)

  datatype NewConnection = NewConnection(
    id: ConnectionId, client: PublicKey, wallet: PublicKey, relays: seq<Relay>, policy: ConnectionPolicy,
    encryption: Encryption, expiresAt: Option<nat>)

  datatype ActiveConnection = ActiveConnection(
    id: ConnectionId, revision: nat, client: PublicKey, wallet: PublicKey, relays: seq<Relay>, policy: ConnectionPolicy,
    encryption: Encryption, createdAt: nat, expiresAt: Option<nat>, updatedAt: nat)

  datatype StoredConnection =
    | Active(connection: ActiveConnection)
    | Tombstoned(id: ConnectionId, revision: nat, tombstonedAt: nat)

  datatype RegistryError =
    | InvalidConnection | AlreadyExists | NotFound | AlreadyTombstoned | StaleRevision | ValueOutOfRange | CorruptData

  /** A row of the connection table with its method and relay rows. */
  datatype ConnectionRow = ConnectionRow(
    revision: int, status: string, client: PublicKey, wallet: PublicKey, encryption: string,
    limitSat: int, interval: string, feePolicy: string, maximumFeeSat: int,
    createdAt: int, expiresAt: Option<int>, updatedAt: int, tombstonedAt: Option<int>,
    methods: set<string>, relays: seq<Relay>)

  /** A row of the wake-registration outbox with its relay rows. */
  datatype WakeRow = WakeRow(
    revision: nat, enabled: bool, client: PublicKey, wallet: PublicKey, attempts: nat,
    availableAt: nat, updatedAt: nat, relays: seq<Relay>)

  datatype Tables = Tables(
    connections: map<ConnectionId, ConnectionRow>,
    wakes: map<ConnectionId, WakeRow>,
    periods: map<A.PeriodKey, A.Period>)

  // ---- Column encodings ----

  function EncryptionToStr(encryption: Encryption): string {
    match encryption
    case Nip44V2 => "nip44_v2"
    case LegacyNip04 => "nip04"
  }

  function StrToEncryption(value: string): Result<Encryption, RegistryError> {
    if value == "nip44_v2" then Ok(Nip44V2)
    else if value == "nip04" then Ok(LegacyNip04)
    else Err(CorruptData)
  }

  function IntervalToStr(interval: Budget.Interval): string {
    match interval
    case Never => "never"
    case Hourly => "hourly"
    case Daily => "daily"
    case Weekly => "weekly"
    case Monthly => "monthly"
    case Yearly => "yearly"
  }

  function StrToInterval(value: string): Result<Budget.Interval, RegistryError> {
    if value == "never" then Ok(Budget.Never)
    else if value == "hourly" then Ok(Budget.Hourly)
    else if value == "daily" then Ok(Budget.Daily)
    else if value == "weekly" then Ok(Budget.Weekly)
    else if value == "monthly" then Ok(Budget.Monthly)
    else if value == "yearly" then Ok(Budget.Yearly)
    else Err(CorruptData)
  }

  function EncodeFeePolicy(policy: Budget.FeePolicy): Result<(string, int), RegistryError> {
    match policy
    case CountTowardBudget(maximum) => if Fits(maximum) then Ok(("count", maximum)) else Err(ValueOutOfRange)
    case ExcludeForCompatibility => Ok(("exclude", 0))
  }

  function StrToFeePolicy(value: string, maximumFee: nat): Result<Budget.FeePolicy, RegistryError> {
    if value == "count" then Ok(Budget.CountTowardBudget(maximumFee))
    else if value == "exclude" && maximumFee == 0 then Ok(Budget.ExcludeForCompatibility)
    else Err(CorruptData)
  }

  function MethodToStr(m: NwcMethod): string {
    match m
    case GetInfo => "get_info"
    case GetBalance => "get_balance"
    case MakeInvoice => "make_invoice"
    case PayInvoice => "pay_invoice"
    case LookupInvoice => "lookup_invoice"
    case ListTransactions => "list_transactions"
  }

  function StrToMethod(value: string): Result<NwcMethod, RegistryError> {
    if value == "get_info" then Ok(GetInfo)
    else if value == "get_balance" then Ok(GetBalance)
    else if value == "make_invoice" then Ok(MakeInvoice)
    else if value == "pay_invoice" then Ok(PayInvoice)
    else if value == "lookup_invoice" then Ok(LookupInvoice)
    else if value == "list_transactions" then Ok(ListTransactions)
    else Err(CorruptData)
  }

  function EncodeMethods(methods: set<NwcMethod>): set<string> {
    set m <- methods :: MethodToStr(m)
  }

  function DecodeMethods(rows: set<string>): Result<set<NwcMethod>, RegistryError> {
    if forall s <- rows :: StrToMethod(s).Ok? then Ok(set s | s in rows && StrToMethod(s).Ok? :: StrToMethod(s).value)
    else Err(CorruptData)
  }

  lemma MethodRoundTrip(m: NwcMethod)
    ensures StrToMethod(MethodToStr(m)) == Ok(m)
  {
    assert |"make_invoice"| == 12 && |"pay_invoice"| == 11 && |"get_balance"| == 11;
    assert "pay_invoice"[0] != "get_balance"[0];
  }

  /** Decoding what was encoded gives back the same authorization, for every value of every column. */
  lemma ColumnsRoundTrip(encryption: Encryption, interval: Budget.Interval, fee: Budget.FeePolicy, methods: set<NwcMethod>)
    ensures StrToEncryption(EncryptionToStr(encryption)) == Ok(encryption)
    ensures StrToInterval(IntervalToStr(interval)) == Ok(interval)
    ensures EncodeFeePolicy(fee).Ok? ==>
              && EncodeFeePolicy(fee).value.1 >= 0
              && StrToFeePolicy(EncodeFeePolicy(fee).value.0, EncodeFeePolicy(fee).value.1) == Ok(fee)
    ensures DecodeMethods(EncodeMethods(methods)) == Ok(methods)
    ensures EncodeMethods(methods) == {} <==> methods == {}
  {
    forall m: NwcMethod
      ensures StrToMethod(MethodToStr(m)) == Ok(m)
    {
      MethodRoundTrip(m);
    }
    var rows := EncodeMethods(methods);
    var decoded := set s | s in rows && StrToMethod(s).Ok? :: StrToMethod(s).value;
    forall m | m in methods
      ensures m in decoded
    {
      assert MethodToStr(m) in rows;
    }
    assert decoded == methods;
    if m :| m in methods {
      assert MethodToStr(m) in rows;
    }
  }

  // ---- Validation ----

  predicate Distinct(relays: seq<Relay>) {
    forall i, j :: 0 <= i < j < |relays| ==> relays[i] != relays[j]
  }

  /** Validates a new connection against the wake relay bound. */
  function Validate(c: NewConnection, maximumRelays: nat): Result<NewConnection, RegistryError> {
    if c.client == c.wallet || !c.client.onCurve || !c.wallet.onCurve
       || c.relays == [] || |c.relays| > maximumRelays || |c.relays| > MAX_CONNECTION_RELAYS
       || c.policy.methods == {} || !Distinct(c.relays)
    then Err(InvalidConnection)
    else Ok(c)
  }

  /** A value of the validated type: only validation constructs one. */
  predicate IsValid(c: NewConnection) {
    Validate(c, MAX_CONNECTION_RELAYS).Ok?
  }

  // ---- Insertion ----

  function RowOf(c: NewConnection, createdAt: nat, now: nat, fee: (string, int)): ConnectionRow {
    ConnectionRow(0, "active", c.client, c.wallet, EncryptionToStr(c.encryption), c.policy.budget.limitSat,
                  IntervalToStr(c.policy.budget.interval), fee.0, fee.1, createdAt, c.expiresAt, now, None,
                  EncodeMethods(c.policy.methods), c.relays)
  }

  function WakeRowOf(c: NewConnection, now: nat): WakeRow {
    WakeRow(0, true, c.client, c.wallet, 0, now, now, c.relays)
  }

  function ActiveOf(c: NewConnection, createdAt: nat, now: nat): ActiveConnection {
    ActiveConnection(c.id, 0, c.client, c.wallet, c.relays, c.policy, c.encryption, createdAt, c.expiresAt, now)
  }

  predicate KeysTaken(t: Tables, client: PublicKey, wallet: PublicKey) {
    exists id <- t.connections :: t.connections[id].client == client && t.connections[id].wallet == wallet
  }

  function InsertState(t: Tables, c: NewConnection, createdAt: nat, usedSat: nat, now: nat)
    : (Tables, Result<ActiveConnection, RegistryError>)
  {
    var fee := EncodeFeePolicy(c.policy.budget.feePolicy);
    var limit := c.policy.budget.limitSat;
    if !Fits(now) || !Fits(createdAt) then (t, Err(ValueOutOfRange))
    else if c.expiresAt.Some? && c.expiresAt.value <= createdAt then (t, Err(InvalidConnection))
    else if (c.expiresAt.Some? && !Fits(c.expiresAt.value)) || !Fits(limit) || fee.Err? then (t, Err(ValueOutOfRange))
    else if c.id in t.connections || KeysTaken(t, c.client, c.wallet) then (t, Err(AlreadyExists))
    else
      var start := Budget.CheckedPeriodStart(c.policy.budget.interval, createdAt, now);
      if usedSat > 0 && start.Err?
      then (t, Err(if start.error.BeforeCreation? then InvalidConnection else ValueOutOfRange))
      else if usedSat > 0 && (!Fits(start.value) || !Fits(usedSat)) then (t, Err(ValueOutOfRange))
      else
        (Tables(t.connections[c.id := RowOf(c, createdAt, now, fee.value)],
                t.wakes[c.id := WakeRowOf(c, now)],
                if usedSat > 0 then t.periods[A.PeriodKey(c.id, start.value) := A.Period(limit, usedSat, now)] else t.periods),
         Ok(ActiveOf(c, createdAt, now)))
  }

  function InsertConnection(t: Tables, c: NewConnection, now: nat): (Tables, Result<ActiveConnection, RegistryError>) {
    InsertState(t, c, now, 0, now)
  }

  function ImportConnection(t: Tables, c: NewConnection, createdAt: nat, usedSat: nat, now: nat)
    : (Tables, Result<ActiveConnection, RegistryError>)
  {
    if createdAt > now || usedSat > c.policy.budget.limitSat || (usedSat > 0 && PayInvoice !in c.policy.methods)
    then (t, Err(InvalidConnection))
    else InsertState(t, c, createdAt, usedSat, now)
  }

  // ---- Revocation ----

  /** Relay rows added where neither position nor address is taken. */
  function MergeIgnoring(existing: seq<Relay>, relays: seq<Relay>): seq<Relay>
    decreases |relays|
  {
    if |relays| <= |existing| then existing
    else
      var before := MergeIgnoring(existing, relays[..|relays| - 1]);
      if relays[|relays| - 1] in before then before else before + [relays[|relays| - 1]]
  }

  function Revoked(row: ConnectionRow, now: nat): ConnectionRow {
    row.(status := "tombstoned", revision := row.revision + 1, updatedAt := now, tombstonedAt := Some(now),
         methods := {}, relays := [])
  }

  function Tombstone(t: Tables, id: ConnectionId, expected: nat, now: nat): (Tables, Result<StoredConnection, RegistryError>) {
    if !Fits(expected) || expected + 1 > U64_MAX || !Fits(expected + 1) || !Fits(now) then (t, Err(ValueOutOfRange))
    else if id !in t.connections then (t, Err(NotFound))
    else
      var row := t.connections[id];
      if row.status == "tombstoned" then (t, Err(AlreadyTombstoned))
      else if row.status != "active" then (t, Err(CorruptData))
      else if row.revision != expected then (t, Err(StaleRevision))
      else if now < row.createdAt then (t, Err(ValueOutOfRange))
      else
        var relays := if id in t.wakes then MergeIgnoring(t.wakes[id].relays, row.relays) else row.relays;
        (Tables(t.connections[id := Revoked(row, now)],
                t.wakes[id := WakeRow(expected + 1, false, row.client, row.wallet, 0, now, now, relays)],
                t.periods),
         Ok(Tombstoned(id, expected + 1, now)))
  }

  // ---- The wake-registration outbox ----

  /** The rows the requeue statement selects. */
  function ActiveConnections(t: Tables): set<ConnectionId> {
    set id | id in t.connections && t.connections[id].status == "active" && t.connections[id].revision >= 0
  }

  function Requeue(t: Tables, enabled: bool, now: nat): (Tables, Result<nat, RegistryError>) {
    if !Fits(now) || exists id <- t.connections :: t.connections[id].status == "active" && t.connections[id].updatedAt > now
    then (t, Err(ValueOutOfRange))
    else
      var active := ActiveConnections(t);
      (t.(wakes := map id | id in t.wakes.Keys + active ::
                     if id in active then
                       var row := t.connections[id];
                       WakeRow(row.revision, enabled, row.client, row.wallet, 0, now, now, row.relays)
                     else t.wakes[id]),
       Ok(|active|))
  }

  /** Removes a registration change only while it is still the latest desired state. */
  function AcknowledgeWake(t: Tables, id: ConnectionId, change: WakeRow): Tables {
    if id in t.wakes && t.wakes[id].revision == change.revision && t.wakes[id].enabled == change.enabled
       && t.wakes[id].attempts == change.attempts && t.wakes[id].updatedAt == change.updatedAt
    then t.(wakes := t.wakes - {id})
    else t
  }

  function RetryWake(t: Tables, id: ConnectionId, change: WakeRow, now: nat, delaySeconds: nat): Tables {
    if delaySeconds > 0 && change.updatedAt <= now && Fits(now + delaySeconds)
       && id in t.wakes && t.wakes[id].revision == change.revision && t.wakes[id].enabled == change.enabled
       && t.wakes[id].attempts == change.attempts && t.wakes[id].updatedAt == change.updatedAt
       && t.wakes[id].attempts < MAX_ATTEMPTS
    then
      t.(wakes := t.wakes[id := t.wakes[id].(attempts := change.attempts + 1, availableAt := now + delaySeconds, updatedAt := now)])
    else t
  }

  // ---- Loading ----

  function HydrateActive(id: ConnectionId, row: ConnectionRow): Result<StoredConnection, RegistryError> {
    if !row.client.onCurve || !row.wallet.onCurve || row.client == row.wallet then Err(CorruptData)
    else if StrToEncryption(row.encryption).Err? then Err(CorruptData)
    else if DecodeMethods(row.methods).Err? || DecodeMethods(row.methods).value == {} then Err(CorruptData)
    else if row.relays == [] || |row.relays| > MAX_CONNECTION_RELAYS then Err(CorruptData)
    else if row.limitSat < 0 || row.maximumFeeSat < 0 || StrToInterval(row.interval).Err?
            || StrToFeePolicy(row.feePolicy, row.maximumFeeSat).Err? then Err(CorruptData)
    else if row.revision < 0 || row.createdAt < 0 || row.updatedAt < 0 || (row.expiresAt.Some? && row.expiresAt.value < 0)
    then Err(CorruptData)
    else
      var budget := Budget.Policy(row.limitSat, StrToInterval(row.interval).value,
                                  StrToFeePolicy(row.feePolicy, row.maximumFeeSat).value);
      Ok(Active(ActiveConnection(
        id, row.revision, row.client, row.wallet, row.relays, ConnectionPolicy(DecodeMethods(row.methods).value, budget),
        StrToEncryption(row.encryption).value, row.createdAt,
        if row.expiresAt.Some? then Some(row.expiresAt.value) else None, row.updatedAt)))
  }

  function Hydrate(id: ConnectionId, row: ConnectionRow): Result<StoredConnection, RegistryError> {
    if row.revision < 0 || row.createdAt < 0 || row.updatedAt < 0 || (row.expiresAt.Some? && row.expiresAt.value < 0)
       || row.updatedAt < row.createdAt || (row.expiresAt.Some? && row.expiresAt.value <= row.createdAt)
    then Err(CorruptData)
    else if row.status == "tombstoned" then
      if row.tombstonedAt == Some(row.updatedAt) then Ok(Tombstoned(id, row.revision, row.updatedAt)) else Err(CorruptData)
    else if row.status == "active" && row.tombstonedAt.None? then HydrateActive(id, row)
    else Err(CorruptData)
  }

  function Load(t: Tables, id: ConnectionId): Result<Option<StoredConnection>, RegistryError> {
    if id !in t.connections then Ok(None)
    else match Hydrate(id, t.connections[id])
      case Ok(stored) => Ok(Some(stored))
      case Err(error) => Err(error)
  }

  predicate IsRevisionActive(t: Tables, id: ConnectionId, revision: nat) {
    id in t.connections && t.connections[id].revision == revision && t.connections[id].status == "active"
  }

  /** What the current budget period of a connection has used, as reported at a given time. */
  function UsageAt(t: Tables, id: ConnectionId, interval: Budget.Interval, createdAt: nat, now: nat): Result<nat, RegistryError> {
    match Budget.ReadPeriodStart(interval, createdAt, now)
    case Err(BeforeCreation) => Err(CorruptData)
    case Err(OutOfRange) => Err(ValueOutOfRange)
    case Ok(start) =>
      if !Fits(start) then Err(ValueOutOfRange)
      else if A.PeriodKey(id, start) in t.periods then Ok(t.periods[A.PeriodKey(id, start)].usedSat)
      else Ok(0)
  }

  // ---- Runs ----

  datatype Action =
    | Insert(c: NewConnection, at: nat)
    | Import(c: NewConnection, createdAt: nat, usedSat: nat, at: nat)
    | Revoke(id: ConnectionId, expected: nat, at: nat)
    | RequeueAll(enabled: bool, at: nat)
    | AckWake(id: ConnectionId, change: WakeRow)
    | DeferWake(id: ConnectionId, change: WakeRow, at: nat, delaySeconds: nat)

  /** Only validated connections reach insertion. */
  predicate Enabled(t: Tables, a: Action) {
    (a.Insert? || a.Import?) ==> IsValid(a.c)
  }

  function Apply(t: Tables, a: Action): Tables {
    match a
    case Insert(c, now) => InsertConnection(t, c, now).0
    case Import(c, createdAt, used, now) => ImportConnection(t, c, createdAt, used, now).0
    case Revoke(id, expected, now) => Tombstone(t, id, expected, now).0
    case RequeueAll(enabled, now) => Requeue(t, enabled, now).0
    case AckWake(id, change) => AcknowledgeWake(t, id, change)
    case DeferWake(id, change, now, delay) => RetryWake(t, id, change, now, delay)
  }

  ghost predicate Run(t: Tables, actions: seq<Action>)
    decreases |actions|
  {
    actions == [] || (Enabled(t, actions[0]) && Run(Apply(t, actions[0]), actions[1..]))
  }

  ghost function After(t: Tables, actions: seq<Action>): Tables
    requires Run(t, actions)
    decreases |actions|
  {
    if actions == [] then t else After(Apply(t, actions[0]), actions[1..])
  }
}
