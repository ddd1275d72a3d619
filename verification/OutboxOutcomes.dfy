/** What each outbox transaction does, in the columns of its rows: when it succeeds and the whole new state. */
module OutboxOutcomes {
  import opened Types
  import opened Outbox
  import L = Ledger

  ghost predicate ValidDraft(draft: InvoiceDraft) {
    && 1 <= |draft.invoice| <= 16_384 && (draft.description.Some? ==> |draft.description.value| <= 4_096)
    && 0 < draft.amountMsat <= I64_MAX && draft.createdAt < draft.expiresAt <= I64_MAX && draft.revision <= I64_MAX
  }

  /** A new record needs a known connection and an unused payment hash; an old one must be of the same invoice. */
  ghost predicate Recordable(rows: Invoices, known: set<ConnectionId>, draft: InvoiceDraft) {
    if draft.id in rows then
      var was := rows[draft.id].draft;
      was.hash == draft.hash && was.connection == draft.connection && was.revision == draft.revision && was.invoice == draft.invoice
    else draft.connection in known && forall other <- rows :: rows[other].draft.hash != draft.hash
  }

  function RelaysOf(rows: Invoices, id: EventId): seq<RelayRow> {
    if id in rows then rows[id].notice.relays else []
  }

  /** A recording succeeds exactly for a recordable draft whose relays stay different. */
  lemma RecordingSucceedsExactly(rows: Invoices, known: set<ConnectionId>, draft: InvoiceDraft, urls: seq<Relay>)
    ensures var (next, r) := RecordInvoice(rows, known, draft, urls, true);
            var relays := MergeRelays(RelaysOf(rows, draft.id), urls);
            && (r.Ok? <==> ValidDraft(draft) && Recordable(rows, known, draft)
                           && forall i, j :: 0 <= i < j < |relays| ==> relays[i].url != relays[j].url)
            && (r.Err? ==> next == rows)
  {
  }

  /** Recording keeps what is there and adds the relays it lacks, each unacknowledged. */
  lemma RecordedRow(rows: Invoices, known: set<ConnectionId>, draft: InvoiceDraft, urls: seq<Relay>)
    requires RecordInvoice(rows, known, draft, urls, true).1.Ok?
    ensures var (next, r) := RecordInvoice(rows, known, draft, urls, true);
            var relays := MergeRelays(RelaysOf(rows, draft.id), urls);
            if draft.id in rows
            then next == rows[draft.id := rows[draft.id].(notice := rows[draft.id].notice.(relays := relays))] && r.value == rows[draft.id]
            else next == rows[draft.id := InvoiceRow(draft, draft.createdAt, None, Notice(None, None, relays))]
  {
  }

  /** The relays a record ends with: its own first, then the ones of later positions. */
  lemma MergedRelays(had: seq<RelayRow>, urls: seq<Relay>)
    ensures var relays := MergeRelays(had, urls);
            && |relays| == (if |urls| > |had| then |urls| else |had|)
            && (forall k :: 0 <= k < |had| ==> relays[k] == had[k])
            && (forall k :: |had| <= k < |relays| ==> relays[k].url == urls[k] && relays[k].deliveredAt.None?)
  {
  }

  /** A check moves a pending record to the time of the check, or one second on if the clock did not advance. */
  lemma TouchExactly(rows: Invoices, id: EventId, now: nat)
    ensures var (next, r) := Touch(rows, id, now);
            var pending := id in rows && rows[id].notice.completedAt.None?;
            && (r.Ok? <==> now <= I64_MAX && (pending ==> rows[id].lastChecked < I64_MAX))
            && next == if r.Ok? && pending
                       then rows[id := rows[id].(lastChecked := if now > rows[id].lastChecked then now else rows[id].lastChecked + 1)]
                       else rows
  {
  }

  /** The first event stored for a pending record stays; everybody gets that one back. */
  lemma StoreEventExactly(rows: Invoices, id: EventId, proposed: string, createdAt: nat)
    ensures var (next, r) := StoreEvent(rows, id, proposed, createdAt);
            var pending := id in rows && rows[id].notice.completedAt.None?;
            && (r.Ok? <==> 1 <= |proposed| <= 131_072 && createdAt <= I64_MAX && pending)
            && (r.Ok? ==> r.value == if rows[id].notice.json.Some? then rows[id].notice.json.value else proposed)
            && next == if r.Ok? && rows[id].notice.json.None?
                       then rows[id := rows[id].(notice := rows[id].notice.(json := Some(proposed)), jsonCreatedAt := Some(createdAt))]
                       else rows
  {
  }

  /** An acknowledgement marks the relay's unacknowledged rows of one record, and nothing else. */
  lemma AcknowledgementExactly(rows: Invoices, id: EventId, url: Relay, now: nat)
    ensures var (next, r) := AcknowledgeInvoice(rows, id, url, now);
            && (r.Ok? <==> now <= I64_MAX)
            && (r.Err? || id !in rows ==> next == rows)
            && (r.Ok? && id in rows ==>
                  && id in next && next == rows[id := rows[id].(notice := rows[id].notice.(relays := next[id].notice.relays))]
                  && |next[id].notice.relays| == |rows[id].notice.relays|
                  && forall k :: 0 <= k < |rows[id].notice.relays| ==>
                       var was := rows[id].notice.relays[k];
                       next[id].notice.relays[k] == if was.url == url && was.deliveredAt.None? then RelayRow(url, Some(now)) else was)
  {
  }

  /** A record completes once, with its event and every relay acknowledged. */
  lemma CompletionExactly(rows: Invoices, id: EventId, now: nat)
    ensures var (next, r) := CompleteInvoice(rows, id, now);
            && (r.Ok? <==> now <= I64_MAX)
            && next == if && r.Ok? && id in rows && rows[id].notice.json.Some? && rows[id].notice.completedAt.None?
                          && forall row <- rows[id].notice.relays :: row.deliveredAt.Some?
                       then rows[id := rows[id].(notice := rows[id].notice.(completedAt := Some(now)))]
                       else rows
  {
    assert id in rows ==> rows[id := rows[id]] == rows;
  }

  /** Expiry removes a record exactly while it has no event. */
  lemma ExpiryExactly(rows: Invoices, id: EventId)
    ensures ExpireInvoice(rows, id) == if id in rows && rows[id].notice.json.None? then rows - {id} else rows
  {
  }

  /** The relays that still lack the event. */
  lemma {:induction false} UndeliveredMembers(relays: seq<RelayRow>, url: Relay)
    ensures url in Undelivered(relays) <==> exists j :: 0 <= j < |relays| && relays[j].url == url && relays[j].deliveredAt.None?
    decreases |relays|
  {
    if relays != [] {
      UndeliveredMembers(relays[1..], url);
      if exists j :: 0 <= j < |relays| && relays[j].url == url && relays[j].deliveredAt.None? {
        var j :| 0 <= j < |relays| && relays[j].url == url && relays[j].deliveredAt.None?;
        assert j > 0 ==> relays[1..][j - 1] == relays[j];
      }
      if exists j :: 0 <= j < |relays[1..]| && relays[1..][j].url == url && relays[1..][j].deliveredAt.None? {
        var j :| 0 <= j < |relays[1..]| && relays[1..][j].url == url && relays[1..][j].deliveredAt.None?;
        assert relays[j + 1] == relays[1..][j];
      }
    }
  }
}
