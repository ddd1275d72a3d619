/**
 The notification outbox: invoices created for remote requests, payments sent for them, the one
 canonical notification event of each and its per-relay acknowledgements. Each function is one
 committed transaction; an error leaves the tables as they were.
 */
module Outbox {
  import opened Types
  import L = Ledger

  const MAX_INVOICE_BYTES: nat := 16_384
  const MAX_DESCRIPTION_BYTES: nat := 4_096
  const MAX_NOTIFICATION_EVENT_BYTES: nat := 131_072
  const DEFAULT_BATCH_SIZE: nat := 20
  const SETTLEMENT_GRACE_SECONDS: nat := 86_400

  datatype RelayRow = RelayRow(url: Relay, deliveredAt: Option<nat>)

  /** The notification columns and relay rows both tables share. */
  datatype Notice = Notice(json: Option<string>, completedAt: Option<nat>, relays: seq<RelayRow>)

  datatype InvoiceDraft = InvoiceDraft(
    id: EventId, hash: PaymentHash, connection: ConnectionId, revision: nat, invoice: string,
    description: Option<string>, amountMsat: nat, createdAt: nat, expiresAt: nat)

  /** `jsonCreatedAt` is the time stored with the canonical event. */
  datatype InvoiceRow = InvoiceRow(draft: InvoiceDraft, lastChecked: nat, jsonCreatedAt: Option<nat>, notice: Notice)

  datatype SentRow = SentRow(connection: ConnectionId, revision: nat, createdAt: nat, notice: Notice)

  type Invoices = map<EventId, InvoiceRow>

  // ---- Notices ----

  predicate AllDelivered(relays: seq<RelayRow>) {
    forall r <- relays :: r.deliveredAt.Some?
  }

  predicate DistinctUrls(relays: seq<RelayRow>) {
    forall i, j :: 0 <= i < j < |relays| ==> relays[i].url != relays[j].url
  }

  /** The first writer's event wins, and only an open notice takes one. */
  function StoreJson(notice: Notice, proposed: string): Notice {
    if notice.completedAt.None? && notice.json.None? then notice.(json := Some(proposed)) else notice
  }

  function Acknowledge(relays: seq<RelayRow>, url: Relay, now: nat): (after: seq<RelayRow>)
    ensures |after| == |relays|
    ensures forall k :: 0 <= k < |relays| ==>
              after[k] == if relays[k].url == url && relays[k].deliveredAt.None? then RelayRow(url, Some(now)) else relays[k]
  {
    if relays == [] then []
    else
      [if relays[0].url == url && relays[0].deliveredAt.None? then RelayRow(url, Some(now)) else relays[0]]
      + Acknowledge(relays[1..], url, now)
  }

  function CompleteNotice(notice: Notice, now: nat): Notice {
    if notice.json.Some? && notice.completedAt.None? && AllDelivered(notice.relays) then notice.(completedAt := Some(now))
    else notice
  }

  function Undelivered(relays: seq<RelayRow>): (urls: seq<Relay>)
    ensures urls == [] <==> AllDelivered(relays)
    ensures forall u <- urls :: exists r <- relays :: r.url == u && r.deliveredAt.None?
  {
    if relays == [] then []
    else if relays[0].deliveredAt.Some? then Undelivered(relays[1..])
    else [relays[0].url] + Undelivered(relays[1..])
  }

  /** Inserts the rows of positions that do not exist yet. */
  function MergeRelays(existing: seq<RelayRow>, urls: seq<Relay>): (merged: seq<RelayRow>)
    ensures |merged| == if |urls| > |existing| then |urls| else |existing|
    ensures forall k :: 0 <= k < |merged| ==> merged[k] == if k < |existing| then existing[k] else RelayRow(urls[k], None)
  {
    if |urls| <= |existing| then existing
    else existing + seq(|urls| - |existing|, k requires 0 <= k < |urls| - |existing| => RelayRow(urls[|existing| + k], None))
  }

  // ---- Invoices ----

  predicate Pending(rows: Invoices, id: EventId) {
    id in rows && rows[id].notice.completedAt.None?
  }

  /** Column checks of an invoice row. */
  predicate InvoiceCheck(row: InvoiceRow) {
    && 1 <= |row.draft.invoice| <= MAX_INVOICE_BYTES
    && (row.draft.description.Some? ==> |row.draft.description.value| <= MAX_DESCRIPTION_BYTES)
    && row.draft.amountMsat > 0
    && row.draft.createdAt < row.draft.expiresAt
    && row.draft.createdAt <= row.lastChecked <= I64_MAX
    && (row.notice.json.Some? ==> |row.notice.json.value| <= MAX_NOTIFICATION_EVENT_BYTES)
    && (row.notice.json.Some? <==> row.jsonCreatedAt.Some?)
    && (row.notice.completedAt.Some? ==> row.notice.json.Some?)
    && DistinctUrls(row.notice.relays)
  }

  predicate SameInvoice(a: InvoiceDraft, b: InvoiceDraft) {
    a.hash == b.hash && a.connection == b.connection && a.revision == b.revision && a.invoice == b.invoice
  }

  function FreshRow(draft: InvoiceDraft): InvoiceRow {
    InvoiceRow(draft, draft.createdAt, None, Notice(None, None, []))
  }

  function RecordInvoice(rows: Invoices, known: set<ConnectionId>, draft: InvoiceDraft, urls: seq<Relay>, random: bool)
    : (Invoices, Result<InvoiceRow, L.LedgerError>)
  {
    if |draft.invoice| == 0 || |draft.invoice| > MAX_INVOICE_BYTES
       || (draft.description.Some? && |draft.description.value| > MAX_DESCRIPTION_BYTES)
       || draft.amountMsat == 0 || draft.expiresAt <= draft.createdAt
    then (rows, Err(L.CorruptData))
    else if !Fits(draft.revision) || !Fits(draft.amountMsat) || !Fits(draft.createdAt) || !Fits(draft.expiresAt)
    then (rows, Err(L.ValueOutOfRange))
    else if !random then (rows, Err(L.RandomnessUnavailable))
    else if draft.id !in rows && (draft.connection !in known || exists other <- rows :: rows[other].draft.hash == draft.hash)
    then (rows, Err(L.DatabaseUnavailable))
    else
      var existing := if draft.id in rows then rows[draft.id] else FreshRow(draft);
      if !SameInvoice(existing.draft, draft) then (rows, Err(L.ClaimMetadataMismatch))
      else
        var merged := MergeRelays(existing.notice.relays, urls);
        if !DistinctUrls(merged) then (rows, Err(L.DatabaseUnavailable))
        else (rows[draft.id := existing.(notice := existing.notice.(relays := merged))], Ok(existing))
  }

  /** Moves a pending invoice behind its last position, whatever the clock says. */
  function Touch(rows: Invoices, id: EventId, now: nat): (Invoices, Result<(), L.LedgerError>) {
    if !Fits(now) then (rows, Err(L.ValueOutOfRange))
    else if !Pending(rows, id) then (rows, Ok(()))
    else if rows[id].lastChecked + 1 > I64_MAX then (rows, Err(L.DatabaseUnavailable))
    else
      var next := if now > rows[id].lastChecked + 1 then now else rows[id].lastChecked + 1;
      (rows[id := rows[id].(lastChecked := next)], Ok(()))
  }

  function StoreEvent(rows: Invoices, id: EventId, proposed: string, createdAt: nat): (Invoices, Result<string, L.LedgerError>) {
    if |proposed| == 0 || |proposed| > MAX_NOTIFICATION_EVENT_BYTES then (rows, Err(L.ResponseTooLarge))
    else if !Fits(createdAt) then (rows, Err(L.ValueOutOfRange))
    else if !Pending(rows, id) then (rows, Err(L.ConnectionUnavailable))
    else
      var row := rows[id];
      var stored := row.(notice := StoreJson(row.notice, proposed),
                         jsonCreatedAt := if row.notice.json.None? then Some(createdAt) else row.jsonCreatedAt);
      (rows[id := stored], Ok(stored.notice.json.value))
  }

  function AcknowledgeInvoice(rows: Invoices, id: EventId, url: Relay, now: nat): (Invoices, Result<(), L.LedgerError>) {
    if !Fits(now) then (rows, Err(L.ValueOutOfRange))
    else if id !in rows then (rows, Ok(()))
    else
      (rows[id := rows[id].(notice := rows[id].notice.(relays := Acknowledge(rows[id].notice.relays, url, now)))], Ok(()))
  }

  function CompleteInvoice(rows: Invoices, id: EventId, now: nat): (Invoices, Result<(), L.LedgerError>) {
    if !Fits(now) then (rows, Err(L.ValueOutOfRange))
    else if id !in rows then (rows, Ok(()))
    else (rows[id := rows[id].(notice := CompleteNotice(rows[id].notice, now))], Ok(()))
  }

  /** Expiry deletes a record only while it has no canonical event. */
  function ExpireInvoice(rows: Invoices, id: EventId): Invoices {
    if id in rows && rows[id].notice.json.None? then rows - {id} else rows
  }

  // ---- Re-recording ----

  /**
   Recording an invoice again adds the relay positions it lacks, completed or not. A completed record
   keeps every relay acknowledged exactly when the new list is no longer than the recorded one, or is
   refused for naming a relay twice.
   */
  lemma RerecordingKeepsCompletionExactly(rows: Invoices, known: set<ConnectionId>, draft: InvoiceDraft, urls: seq<Relay>)
    requires draft.id in rows && rows[draft.id].notice.completedAt.Some? && AllDelivered(rows[draft.id].notice.relays)
    requires RecordInvoice(rows, known, draft, [], true).1.Ok?
    ensures AllDelivered(RecordInvoice(rows, known, draft, urls, true).0[draft.id].notice.relays)
            <==> |urls| <= |rows[draft.id].notice.relays|
                 || !DistinctUrls(MergeRelays(rows[draft.id].notice.relays, urls))
  {
    var existing := rows[draft.id].notice.relays;
    var merged := MergeRelays(existing, urls);
    if |urls| > |existing| {
      assert merged[|existing|] in merged && merged[|existing|].deliveredAt.None?;
    }
  }

  const SAMPLE_DRAFT := InvoiceDraft(1, 7, 0, 0, "invoice", None, 1_000, 0, 60)

  /** A concrete case: a completed invoice recorded again with one more relay has an unacknowledged one. */
  lemma LongerListReopensCompletion()
    ensures var completed := Notice(Some("event"), Some(5), [RelayRow("a", Some(4))]);
            var rows: Invoices := map[1 := InvoiceRow(SAMPLE_DRAFT, 0, Some(3), completed)];
            var (next, r) := RecordInvoice(rows, {0}, SAMPLE_DRAFT, ["a", "b"], true);
            && InvoiceCheck(rows[1]) && AllDelivered(rows[1].notice.relays)
            && r.Ok? && 1 in next && next[1].notice.completedAt.Some? && !AllDelivered(next[1].notice.relays)
  {
    var merged := MergeRelays([RelayRow("a", Some(4))], ["a", "b"]);
    assert merged == [RelayRow("a", Some(4)), RelayRow("b", None)];
    assert merged[1] in merged && "a" != "b";
  }
}
